/** The "Minhas Vagas" screen (components/MyApplications.tsx): the jobs the
    candidate applied to and the jobs they saved, under two tabs. */
module MyApplications {
  import opened Types
  import App

  /** The screen's two tabs: "Inscritas" (applied) and "Salvas" (saved). */
  datatype SectionTab = AppliedTab | SavedTab

  /** The tab the screen opens on. */
  const InitialTab := AppliedTab

  /** Some job of the list has the id `id`. */
  ghost predicate HasJob(jobs: seq<Job>, id: string)
  {
    exists j :: j in jobs && j.id == id
  }

  /** The first job with the id `id` (Array.find). */
  function FindJob(jobs: seq<Job>, id: string): (r: Option<Job>)
    ensures r.None? <==> !HasJob(jobs, id)
    ensures r.Some? ==> r.value in jobs && r.value.id == id
  {
    if jobs == [] then None
    else if jobs[0].id == id then Some(jobs[0])
    else
      assert jobs == [jobs[0]] + jobs[1..];
      FindJob(jobs[1..], id)
  }

  /** The job found is the first one with that id. */
  lemma {:induction false} FindJobFirst(jobs: seq<Job>, id: string, i: nat)
    requires i < |jobs| && jobs[i].id == id
    requires forall k :: 0 <= k < i ==> jobs[k].id != id
    ensures FindJob(jobs, id) == Some(jobs[i])
  {
    if i > 0 {
      FindJobFirst(jobs[1..], id, i - 1);
    }
  }

  /** When ids are unique, looking a job up by its id finds that job. */
  lemma FindJobUnique(jobs: seq<Job>, j: Job)
    requires UniqueIds(jobs) && j in jobs
    ensures FindJob(jobs, j.id) == Some(j)
  {
    var i :| 0 <= i < |jobs| && jobs[i] == j;
    FindJobFirst(jobs, j.id, i);
  }

  /** The applied jobs: for each application, in application order, the
      first job with its job id; an application whose job is gone from the
      list shows nothing. */
  function AppliedJobs(apps: seq<Application>, jobs: seq<Job>): (r: seq<Job>)
    ensures |r| <= |apps|
    ensures forall j :: j in r ==> j in jobs
  {
    if apps == [] then []
    else
      var earlier := AppliedJobs(apps[..|apps| - 1], jobs);
      match FindJob(jobs, apps[|apps| - 1].jobId)
      case Some(j) => earlier + [j]
      case None => earlier
  }

  /** The applied jobs of two runs of applications are those of the first
      followed by those of the second: the order is the applications'. */
  lemma {:induction false} AppliedJobsAppend(first: seq<Application>, second: seq<Application>, jobs: seq<Job>)
    ensures AppliedJobs(first + second, jobs) == AppliedJobs(first, jobs) + AppliedJobs(second, jobs)
  {
    if second == [] {
      assert first + second == first;
    } else {
      var front := second[..|second| - 1];
      assert (first + second)[..|first + second| - 1] == first + front;
      AppliedJobsAppend(first, front, jobs);
    }
  }

  /** Every application shows a job exactly when every application's job
      is still in the list. */
  lemma {:induction false} AppliedJobsComplete(apps: seq<Application>, jobs: seq<Job>)
    ensures |AppliedJobs(apps, jobs)| == |apps| <==> forall a :: a in apps ==> HasJob(jobs, a.jobId)
  {
    if apps != [] {
      var front, last := apps[..|apps| - 1], apps[|apps| - 1];
      AppliedJobsComplete(front, jobs);
      assert forall a :: a in apps <==> a in front || a == last by {
        assert apps == front + [last];
      }
    }
  }

  /** A shown job is one some application is for; when ids are unique,
      every job some application is for is shown. */
  lemma {:induction false} AppliedJobsMembers(apps: seq<Application>, jobs: seq<Job>, j: Job)
    ensures j in AppliedJobs(apps, jobs) ==> exists a :: a in apps && a.jobId == j.id
    ensures UniqueIds(jobs) && j in jobs && (exists a :: a in apps && a.jobId == j.id) ==> j in AppliedJobs(apps, jobs)
  {
    if apps != [] {
      var front, last := apps[..|apps| - 1], apps[|apps| - 1];
      AppliedJobsMembers(front, jobs, j);
      assert forall a :: a in apps <==> a in front || a == last by {
        assert apps == front + [last];
      }
      if UniqueIds(jobs) && j in jobs && last.jobId == j.id {
        FindJobUnique(jobs, j);
      }
    }
  }

  /** Applying to a job of the list (the shell's Apply) adds that job at
      the end of the applied jobs. */
  lemma AppliedAfterApply(apps: seq<Application>, jobs: seq<Job>, job: Job, newId: string, now: string)
    requires UniqueIds(jobs) && job in jobs
    ensures AppliedJobs(apps + [Application(newId, job.id, App.Me, Pending, now)], jobs)
      == AppliedJobs(apps, jobs) + [job]
  {
    var a := Application(newId, job.id, App.Me, Pending, now);
    assert (apps + [a])[..|apps|] == apps;
    FindJobUnique(jobs, job);
  }

  /** The saved jobs: the jobs whose id is saved, in the order of the job
      list, not in the order they were saved. */
  function SavedJobs(jobs: seq<Job>, savedIds: seq<string>): (r: seq<Job>)
    ensures IsSubsequence(r, jobs)
    ensures forall j :: j in r <==> j in jobs && j.id in savedIds
  {
    Filter(jobs, (j: Job) => j.id in savedIds)
  }

  /** The order of saving does not matter: two id lists holding the same
      ids give the same saved jobs. */
  lemma SavedJobsIgnoreSaveOrder(jobs: seq<Job>, ids: seq<string>, others: seq<string>)
    requires forall x :: x in ids <==> x in others
    ensures SavedJobs(jobs, ids) == SavedJobs(jobs, others)
  {
    FilterSameTest(jobs, (j: Job) => j.id in ids, (j: Job) => j.id in others);
  }

  /** Toggling the saved state of a job of the list (with unique ids) adds
      it to the saved jobs when it was not saved and removes it when it
      was: the saved count moves by one, and only that job changes. */
  lemma SavedAfterToggle(jobs: seq<Job>, ids: seq<string>, k: nat)
    requires UniqueIds(jobs) && k < |jobs|
    ensures var after := SavedJobs(jobs, App.Toggled(ids, jobs[k].id));
      && (jobs[k] in after <==> jobs[k].id !in ids)
      && |after| == (if jobs[k].id in ids then |SavedJobs(jobs, ids)| - 1 else |SavedJobs(jobs, ids)| + 1)
      && forall i :: 0 <= i < |jobs| && i != k ==> (jobs[i] in after <==> jobs[i] in SavedJobs(jobs, ids))
  {
    var id := jobs[k].id;
    var toggled := App.Toggled(ids, id);
    forall i | 0 <= i < |jobs| && i != k
      ensures (jobs[i].id in toggled) == (jobs[i].id in ids)
    {
      assert jobs[i].id != id;
    }
    FilterCountOneDiffers(jobs, (j: Job) => j.id in toggled, (j: Job) => j.id in ids, k);
  }

  /** What the screen shows for a tab. */
  datatype View = View(
    tab: SectionTab,
    appliedCount: nat,       // the counter on the "Inscritas" tab
    savedCount: nat,         // the counter on the "Salvas" tab
    shown: seq<Job>,         // the job cards, in order
    emptyState: bool)        // the "Nenhuma vaga por aqui ainda." message

  /** The jobs of a tab. */
  function DisplayJobs(apps: seq<Application>, savedIds: seq<string>, jobs: seq<Job>, tab: SectionTab): (r: seq<Job>)
    ensures forall j :: j in r ==> j in jobs
    ensures tab == SavedTab ==> forall j :: j in r ==> j.id in savedIds
  {
    if tab == AppliedTab then AppliedJobs(apps, jobs) else SavedJobs(jobs, savedIds)
  }

  /** The screen for a tab: both counters, the cards of the tab, and the
      empty-state message exactly when the tab has no card. */
  function Render(apps: seq<Application>, savedIds: seq<string>, jobs: seq<Job>, tab: SectionTab): (v: View)
    ensures v.tab == tab
    ensures v.appliedCount == |AppliedJobs(apps, jobs)| <= |apps|
    ensures v.savedCount == |SavedJobs(jobs, savedIds)| <= |jobs|
    ensures v.shown == DisplayJobs(apps, savedIds, jobs, tab)
    ensures v.emptyState <==> v.shown == []
  {
    var applied := AppliedJobs(apps, jobs);
    var saved := SavedJobs(jobs, savedIds);
    var shown := if tab == AppliedTab then applied else saved;
    View(tab, |applied|, |saved|, shown, |shown| == 0)
  }

  /** On the applied tab the empty state shows exactly when no application
      has its job in the list. */
  lemma AppliedEmptyState(apps: seq<Application>, savedIds: seq<string>, jobs: seq<Job>)
    ensures Render(apps, savedIds, jobs, AppliedTab).emptyState <==> forall a :: a in apps ==> !HasJob(jobs, a.jobId)
  {
    var shown := AppliedJobs(apps, jobs);
    if shown != [] {
      AppliedJobsMembers(apps, jobs, shown[0]);
    }
    forall a | a in apps && HasJob(jobs, a.jobId)
      ensures shown != []
    {
      AppliedHasJob(apps, jobs, a);
    }
  }

  // an application whose job is in the list shows at least one job
  lemma {:induction false} AppliedHasJob(apps: seq<Application>, jobs: seq<Job>, a: Application)
    requires a in apps && HasJob(jobs, a.jobId)
    ensures AppliedJobs(apps, jobs) != []
  {
    var front, last := apps[..|apps| - 1], apps[|apps| - 1];
    if a != last {
      assert a in front by {
        assert apps == front + [last];
      }
      AppliedHasJob(front, jobs, a);
    }
  }

  /** On the saved tab the empty state shows exactly when no job of the
      list is saved. */
  lemma SavedEmptyState(apps: seq<Application>, savedIds: seq<string>, jobs: seq<Job>)
    ensures Render(apps, savedIds, jobs, SavedTab).emptyState <==> forall j :: j in jobs ==> j.id !in savedIds
  {
    var shown := SavedJobs(jobs, savedIds);
    assert shown != [] ==> shown[0] in shown;
  }
}
