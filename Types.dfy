/** The records of the job marketplace (types.ts) and a few facts about
    sequences that the rest of the model shares. */
module Types {

  datatype Option<T> = None | Some(value: T)

  /** The two kinds of account. */
  datatype UserRole = Candidate | Employer

  /** The string a role is stored and compared as. */
  function RoleName(r: UserRole): string
  {
    match r
    case Candidate => "candidate"
    case Employer => "employer"
  }

  datatype CompanyType = Market | Pharmacy | Restaurant | Shop | Bakery
  datatype Shift = Morning | Afternoon | Night | Flexible
  datatype JobStatus = Open | InProcess | Closed

  /** A geographic location; the coordinates are never read by the core. */
  datatype Location = Location(lat: real, lng: real, address: string)

  /** A job listing. Only `id`, `title` and `company` are read by the core. */
  datatype Job = Job(
    id: string,
    title: string,
    company: string,
    companyType: CompanyType,
    salary: string,
    shift: Shift,
    distance: real,
    location: Location,
    description: string,
    requirements: seq<string>,
    createdAt: string,
    status: Option<JobStatus>)

  datatype ApplicationStatus = Pending | Accepted | Rejected

  /** A candidate's application to one job. */
  datatype Application = Application(
    id: string,
    jobId: string,
    candidateId: string,
    status: ApplicationStatus,
    appliedAt: string)

  datatype NotificationKind = JobAlert | ApplicationReceived | ProfileView

  datatype AppNotification = AppNotification(
    id: string,
    kind: NotificationKind,
    title: string,
    message: string,
    timestamp: string,
    read: bool,
    relatedId: Option<string>)

  /** No two jobs of the list share an id. */
  ghost predicate UniqueIds(jobs: seq<Job>)
  {
    forall i, j :: 0 <= i < |jobs| && 0 <= j < |jobs| && jobs[i].id == jobs[j].id ==> i == j
  }

  /** No value occurs twice in the sequence. */
  ghost predicate NoDuplicates<T>(s: seq<T>)
  {
    forall i, j :: 0 <= i < |s| && 0 <= j < |s| && s[i] == s[j] ==> i == j
  }

  /** `sub` is `s` with some elements deleted, the rest kept in their order. */
  ghost predicate IsSubsequence<T>(sub: seq<T>, s: seq<T>)
    decreases |s|
  {
    if sub == [] then true
    else if s == [] then false
    else if sub[|sub| - 1] == s[|s| - 1] then IsSubsequence(sub[..|sub| - 1], s[..|s| - 1])
    else IsSubsequence(sub, s[..|s| - 1])
  }

  /** Every sequence is a subsequence of itself. */
  lemma {:induction false} SubsequenceReflexive<T>(s: seq<T>)
    ensures IsSubsequence(s, s)
    decreases |s|
  {
    if s != [] {
      SubsequenceReflexive(s[..|s| - 1]);
    }
  }

  /** Adding the next element of `s` to both sides keeps the relation. */
  lemma SubsequenceExtend<T>(sub: seq<T>, s: seq<T>, x: T)
    requires IsSubsequence(sub, s)
    ensures IsSubsequence(sub + [x], s + [x])
  {
    assert (sub + [x])[..|sub|] == sub;
    assert (s + [x])[..|s|] == s;
  }

  /** Adding an element on the right of `s` only keeps the relation. */
  lemma {:induction false} SubsequenceSkip<T>(sub: seq<T>, s: seq<T>, x: T)
    requires IsSubsequence(sub, s)
    ensures IsSubsequence(sub, s + [x])
    decreases |s|, 1
  {
    assert (s + [x])[..|s|] == s;
    if sub != [] && sub[|sub| - 1] == x {
      SubsequenceDropLast(sub, s);
    }
  }

  /** Dropping the last element of `sub` keeps the relation. */
  lemma {:induction false} SubsequenceDropLast<T>(sub: seq<T>, s: seq<T>)
    requires sub != [] && IsSubsequence(sub, s)
    ensures IsSubsequence(sub[..|sub| - 1], s)
    decreases |s|, 0
  {
    var init, front := sub[..|sub| - 1], s[..|s| - 1];
    if sub[|sub| - 1] != s[|s| - 1] {
      SubsequenceDropLast(sub, front);
    }
    assert s == front + [s[|s| - 1]];
    SubsequenceSkip(init, front, s[|s| - 1]);
  }

  /** Every element of a subsequence is an element of the whole. */
  lemma {:induction false} SubsequenceMembers<T>(sub: seq<T>, s: seq<T>)
    requires IsSubsequence(sub, s)
    ensures forall x :: x in sub ==> x in s
    decreases |s|
  {
    if sub == [] {
    } else if sub[|sub| - 1] == s[|s| - 1] {
      SubsequenceMembers(sub[..|sub| - 1], s[..|s| - 1]);
      assert sub == sub[..|sub| - 1] + [sub[|sub| - 1]];
      assert s == s[..|s| - 1] + [s[|s| - 1]];
    } else {
      SubsequenceMembers(sub, s[..|s| - 1]);
      assert s == s[..|s| - 1] + [s[|s| - 1]];
    }
  }

  /** A subsequence of a list without repeats has no repeats. */
  lemma {:induction false} SubsequenceNoDuplicates<T>(sub: seq<T>, s: seq<T>)
    requires IsSubsequence(sub, s) && NoDuplicates(s)
    ensures NoDuplicates(sub)
    decreases |s|
  {
    if sub != [] {
      var front := s[..|s| - 1];
      assert NoDuplicates(front);
      if sub[|sub| - 1] == s[|s| - 1] {
        var init := sub[..|sub| - 1];
        SubsequenceNoDuplicates(init, front);
        SubsequenceMembers(init, front);
        assert sub == init + [s[|s| - 1]];
        assert s[|s| - 1] !in front;
      } else {
        SubsequenceNoDuplicates(sub, front);
      }
    }
  }

  /** The elements of `s` that satisfy `p`, in their order (Array.filter). */
  function Filter<T(==,!new)>(s: seq<T>, p: T -> bool): (r: seq<T>)
    ensures |r| <= |s|
    ensures IsSubsequence(r, s)
    ensures forall x :: x in r <==> x in s && p(x)
  {
    if s == [] then []
    else
      var front, last := s[..|s| - 1], s[|s| - 1];
      var earlier := Filter(front, p);
      assert s == front + [last];
      if p(last) then
        SubsequenceExtend(earlier, front, last);
        earlier + [last]
      else
        SubsequenceSkip(earlier, front, last);
        earlier
  }

  /** A filter that every element passes keeps the whole sequence. */
  lemma {:induction false} FilterKeepsAll<T(!new)>(s: seq<T>, p: T -> bool)
    requires forall x :: x in s ==> p(x)
    ensures Filter(s, p) == s
  {
    if s != [] {
      FilterKeepsAll(s[..|s| - 1], p);
      assert s == s[..|s| - 1] + [s[|s| - 1]];
    }
  }

  /** Two tests that agree on every element of `s` filter it alike. */
  lemma {:induction false} FilterSameTest<T(!new)>(s: seq<T>, p: T -> bool, q: T -> bool)
    requires forall x :: x in s ==> p(x) == q(x)
    ensures Filter(s, p) == Filter(s, q)
  {
    if s != [] {
      FilterSameTest(s[..|s| - 1], p, q);
    }
  }

  /** Two tests that agree on every element of `s` but the one at `k`: the
      two filtered lengths differ by what the tests say about that one. */
  lemma {:induction false} FilterCountOneDiffers<T(!new)>(s: seq<T>, p: T -> bool, q: T -> bool, k: nat)
    requires k < |s|
    requires forall i :: 0 <= i < |s| && i != k ==> p(s[i]) == q(s[i])
    ensures |Filter(s, p)| + (if q(s[k]) then 1 else 0) == |Filter(s, q)| + (if p(s[k]) then 1 else 0)
  {
    var front := s[..|s| - 1];
    if k == |s| - 1 {
      forall x | x in front
        ensures p(x) == q(x)
      {
        var i :| 0 <= i < |front| && front[i] == x;
        assert s[i] == x;
      }
      FilterSameTest(front, p, q);
    } else {
      FilterCountOneDiffers(front, p, q, k);
    }
  }
}
