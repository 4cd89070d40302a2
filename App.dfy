/** The application shell (App.tsx): the signed-in user's state, the
    handlers that update it, and the values derived from it for display. */
module App {
  import opened Types
  import Fixtures

  /** The bottom-navigation tabs: map, list, profile, employer portal,
      "candidaturas" (my applications) and "candidatos" (candidates). */
  datatype Tab = MapTab | ListTab | ProfileTab | EmployerTab | ApplicationsTab | CandidatesTab

  /** How the home screen shows the jobs. */
  datatype ViewMode = MapView | ListView

  /** The key/value store the simulated session lives in (localStorage). */
  type Storage = map<string, string>

  const SessionKey := "session_simulated"
  const UserTypeKey := "user_type"

  /** Every new application is made by the signed-in candidate, "me". */
  const Me := "me"

  // ---------------------------------------------------------------------
  // Notifications

  predicate IsUnread(n: AppNotification)
  {
    !n.read
  }

  /** The badge count: how many notifications are still unread. */
  function UnreadCount(ns: seq<AppNotification>): (r: nat)
    ensures r <= |ns|
    ensures r == 0 <==> forall n :: n in ns ==> n.read
  {
    var unread := Filter(ns, IsUnread);
    assert unread != [] ==> unread[0] in unread;
    |unread|
  }

  /** The notifications with every one whose id is `id` marked as read. */
  function WithRead(ns: seq<AppNotification>, id: string): (r: seq<AppNotification>)
    ensures |r| == |ns|
    ensures forall i :: 0 <= i < |ns| ==> r[i] == if ns[i].id == id then ns[i].(read := true) else ns[i]
  {
    if ns == [] then []
    else
      var last := ns[|ns| - 1];
      WithRead(ns[..|ns| - 1], id) + [if last.id == id then last.(read := true) else last]
  }

  /** Marking as read only touches the notifications with that id, and
      only their `read` flag: ids, order and everything else stay. */
  lemma MarkReadOnlyTouchesId(ns: seq<AppNotification>, id: string, i: nat)
    requires i < |ns|
    ensures WithRead(ns, id)[i].id == ns[i].id
    ensures WithRead(ns, id)[i].read == (ns[i].read || ns[i].id == id)
    ensures WithRead(ns, id)[i].(read := ns[i].read) == ns[i]
  {
  }

  /** Marking the same id as read twice is the same as once. */
  lemma MarkReadIdempotent(ns: seq<AppNotification>, id: string)
    ensures WithRead(WithRead(ns, id), id) == WithRead(ns, id)
  {
  }

  /** The unread notifications that carry the id `id`. */
  function UnreadWithId(ns: seq<AppNotification>, id: string): (r: seq<AppNotification>)
    ensures forall n :: n in r <==> n in ns && !n.read && n.id == id
  {
    Filter(ns, (n: AppNotification) => !n.read && n.id == id)
  }

  /** Marking as read lowers the unread count by exactly the number of
      unread notifications with that id. */
  lemma {:induction false} MarkReadCount(ns: seq<AppNotification>, id: string)
    ensures UnreadCount(WithRead(ns, id)) + |UnreadWithId(ns, id)| == UnreadCount(ns)
  {
    if ns != [] {
      MarkReadCount(ns[..|ns| - 1], id);
      UnreadCountStep(ns);
      MarkedUnreadStep(ns, id);
    }
  }

  /** Marking as read never raises the unread count, and lowers it exactly
      when some unread notification has that id. */
  lemma MarkReadLowersUnread(ns: seq<AppNotification>, id: string)
    ensures UnreadCount(WithRead(ns, id)) <= UnreadCount(ns)
    ensures UnreadCount(WithRead(ns, id)) < UnreadCount(ns) <==> exists n :: n in ns && n.id == id && !n.read
  {
    MarkReadCount(ns, id);
    var w := UnreadWithId(ns, id);
    assert w != [] ==> w[0] in w;
  }

  // the step of the count: the last notification of the marked list counts
  // as unread only if it was unread and has another id
  lemma MarkedUnreadStep(ns: seq<AppNotification>, id: string)
    requires ns != []
    ensures UnreadCount(WithRead(ns, id)) == UnreadCount(WithRead(ns[..|ns| - 1], id))
      + (if ns[|ns| - 1].read || ns[|ns| - 1].id == id then 0 else 1)
  {
    var marked := WithRead(ns, id);
    assert marked[..|ns| - 1] == WithRead(ns[..|ns| - 1], id);
    UnreadCountStep(marked);
  }

  // the unread count of a list is that of all but its last element, plus
  // one if the last is unread
  lemma UnreadCountStep(ns: seq<AppNotification>)
    requires ns != []
    ensures UnreadCount(ns) == UnreadCount(ns[..|ns| - 1]) + (if ns[|ns| - 1].read then 0 else 1)
  {
  }

  // ---------------------------------------------------------------------
  // Search

  /** A character in lower case; only the ASCII letters A to Z change. */
  function LowerChar(c: char): char
  {
    if 'A' <= c <= 'Z' then (c as int + 32) as char else c
  }

  /** A string in lower case (String.toLowerCase on ASCII text). */
  function Lower(s: string): (r: string)
    ensures |r| == |s|
    ensures forall i :: 0 <= i < |s| ==> r[i] == LowerChar(s[i])
    ensures forall i :: 0 <= i < |r| ==> !('A' <= r[i] <= 'Z')
  {
    seq(|s|, i requires 0 <= i < |s| => LowerChar(s[i]))
  }

  /** Lower-casing twice is lower-casing once. */
  lemma LowerIdempotent(s: string)
    ensures Lower(Lower(s)) == Lower(s)
  {
  }

  /** `sub` occurs in `s` starting at index `i`. */
  predicate OccursAt(s: string, sub: string, i: int)
  {
    0 <= i <= |s| - |sub| && s[i..i + |sub|] == sub
  }

  /** `sub` occurs in `s` as a contiguous piece (String.includes). */
  function Contains(s: string, sub: string): (r: bool)
    ensures r <==> exists i :: OccursAt(s, sub, i)
    decreases |s|
  {
    if |sub| > |s| then false
    else if s[..|sub|] == sub then
      assert OccursAt(s, sub, 0);
      true
    else
      OccursShift(s, sub);
      var r := Contains(s[1..], sub);
      assert r ==> exists i :: OccursAt(s, sub, i) by {
        if r {
          var i :| OccursAt(s[1..], sub, i);
          assert OccursAt(s, sub, i + 1);
        }
      }
      r
  }

  // an occurrence after the first index is an occurrence in the tail
  lemma OccursShift(s: string, sub: string)
    requires s != []
    ensures forall i {:trigger OccursAt(s, sub, i)} :: 1 <= i ==> (OccursAt(s, sub, i) <==> OccursAt(s[1..], sub, i - 1))
  {
    forall i | 1 <= i && OccursAt(s[1..], sub, i - 1)
      ensures OccursAt(s, sub, i)
    {
      SliceOfTail(s, i, |sub|);
    }
    forall i | 1 <= i && OccursAt(s, sub, i)
      ensures OccursAt(s[1..], sub, i - 1)
    {
      SliceOfTail(s, i, |sub|);
    }
  }

  // a slice of the tail is the slice one further on
  lemma SliceOfTail(s: string, i: int, len: nat)
    requires 1 <= i && i + len <= |s|
    ensures s[i..i + len] == s[1..][i - 1..i - 1 + len]
  {
    var here, there := s[i..i + len], s[1..][i - 1..i - 1 + len];
    assert forall k :: 0 <= k < len ==> here[k] == there[k];
  }

  /** The empty string occurs in every string. */
  lemma ContainsEmpty(s: string)
    ensures Contains(s, "")
  {
    assert OccursAt(s, "", 0);
  }

  /** A job matches a query when its title or its company contains the
      query, ignoring case. */
  predicate Matches(job: Job, query: string)
  {
    Contains(Lower(job.title), Lower(query)) || Contains(Lower(job.company), Lower(query))
  }

  /** The jobs the home screen shows for a search query. */
  function FilteredJobs(jobs: seq<Job>, query: string): (r: seq<Job>)
    ensures IsSubsequence(r, jobs)
    ensures forall j :: j in r <==> j in jobs && Matches(j, query)
  {
    Filter(jobs, j => Matches(j, query))
  }

  /** With an empty query every job is shown, in order. */
  lemma EmptyQueryKeepsAll(jobs: seq<Job>)
    ensures FilteredJobs(jobs, "") == jobs
  {
    forall j | j in jobs
      ensures Matches(j, "")
    {
      ContainsEmpty(Lower(j.title));
    }
    FilterKeepsAll(jobs, j => Matches(j, ""));
  }

  /** The search ignores the case of the query. */
  lemma SearchIgnoresQueryCase(jobs: seq<Job>, query: string)
    ensures FilteredJobs(jobs, Lower(query)) == FilteredJobs(jobs, query)
  {
    LowerIdempotent(query);
    FilterSameTest(jobs, j => Matches(j, Lower(query)), j => Matches(j, query));
  }

  // ---------------------------------------------------------------------
  // Saved jobs

  /** The ids other than `id`, in their order. */
  function Others(ids: seq<string>, id: string): (r: seq<string>)
    ensures IsSubsequence(r, ids)
    ensures forall x :: x in r <==> x in ids && x != id
  {
    Filter(ids, x => x != id)
  }

  /** The saved ids after toggling `id`: removed if it was saved, added at
      the end if it was not. */
  function Toggled(ids: seq<string>, id: string): (r: seq<string>)
    ensures id in r <==> id !in ids
    ensures forall x :: x != id ==> (x in r <==> x in ids)
    ensures Others(r, id) == Others(ids, id)
    ensures NoDuplicates(ids) ==> NoDuplicates(r)
    ensures id !in ids ==> r == ids + [id]
  {
    if id in ids then
      FilterKeepsAll(Others(ids, id), x => x != id);
      OthersNoDuplicates(ids, id);
      Others(ids, id)
    else
      assert (ids + [id])[..|ids|] == ids;
      ids + [id]
  }

  // removing an id keeps a list free of repeats
  lemma OthersNoDuplicates(ids: seq<string>, id: string)
    ensures NoDuplicates(ids) ==> NoDuplicates(Others(ids, id))
  {
    if NoDuplicates(ids) {
      SubsequenceNoDuplicates(Others(ids, id), ids);
    }
  }

  /** Saving and unsaving a job that was not saved restores the list. */
  lemma ToggleTwiceRestores(ids: seq<string>, id: string)
    requires id !in ids
    ensures Toggled(Toggled(ids, id), id) == ids
  {
    FilterKeepsAll(ids, x => x != id);
  }

  // ---------------------------------------------------------------------
  // Applications

  /** The first application to the job `jobId` (Array.find). */
  function FindApplication(apps: seq<Application>, jobId: string): (r: Option<Application>)
    ensures r.None? <==> forall a :: a in apps ==> a.jobId != jobId
    ensures r.Some? ==> exists i :: (0 <= i < |apps| && apps[i] == r.value && r.value.jobId == jobId
      && forall k :: 0 <= k < i ==> apps[k].jobId != jobId)
  {
    if apps == [] then None
    else if apps[0].jobId == jobId then Some(apps[0])
    else
      var r := FindApplication(apps[1..], jobId);
      assert apps == [apps[0]] + apps[1..];
      if r.Some? then
        var i :| 0 <= i < |apps[1..]| && apps[1..][i] == r.value && r.value.jobId == jobId
          && forall k :: 0 <= k < i ==> apps[1..][k].jobId != jobId;
        assert apps[i + 1] == r.value;
        r
      else
        r
  }

  /** No two applications are for the same job. */
  ghost predicate OnePerJob(apps: seq<Application>)
  {
    forall i, j :: 0 <= i < |apps| && 0 <= j < |apps| && apps[i].jobId == apps[j].jobId ==> i == j
  }

  /** Appending an application for a job not yet applied to keeps one
      application per job. */
  lemma ApplyKeepsOnePerJob(apps: seq<Application>, a: Application)
    requires OnePerJob(apps) && FindApplication(apps, a.jobId).None?
    ensures OnePerJob(apps + [a])
  {
    assert forall x :: x in apps ==> x.jobId != a.jobId;
  }

  // ---------------------------------------------------------------------
  // Session

  /** The store after signing in as `role`. */
  function LoginStorage(st: Storage, role: UserRole): (r: Storage)
    ensures r.Keys == st.Keys + {SessionKey, UserTypeKey}
    ensures r[SessionKey] == "true" && r[UserTypeKey] == RoleName(role)
  {
    st[SessionKey := "true"][UserTypeKey := RoleName(role)]
  }

  /** The store after signing out. */
  function LogoutStorage(st: Storage): (r: Storage)
    ensures r.Keys == st.Keys - {SessionKey, UserTypeKey}
    ensures forall k :: k in r ==> r[k] == st[k]
  {
    st - {SessionKey, UserTypeKey}
  }

  /** The role a start-up restores: the stored user type, when a session
      flag "true" and a non-empty user type are both stored. The stored
      string is taken as it is, whatever it says. */
  function RestoredRole(st: Storage): (r: Option<string>)
    ensures r.Some? <==> SessionKey in st && st[SessionKey] == "true" && UserTypeKey in st && st[UserTypeKey] != ""
    ensures r.Some? ==> r.value == st[UserTypeKey]
  {
    if SessionKey in st && st[SessionKey] == "true" && UserTypeKey in st && st[UserTypeKey] != "" then
      Some(st[UserTypeKey])
    else
      None
  }

  /** A start-up after signing in restores the role signed in with. */
  lemma RestoreAfterLogin(st: Storage, role: UserRole)
    ensures RestoredRole(LoginStorage(st, role)) == Some(RoleName(role))
  {
  }

  /** A start-up after signing out restores nothing. */
  lemma RestoreAfterLogout(st: Storage)
    ensures RestoredRole(LogoutStorage(st)) == None
  {
  }

  /** Signing in and out touch only the two session keys. */
  lemma SessionKeepsOtherKeys(st: Storage, role: UserRole, k: string)
    requires k != SessionKey && k != UserTypeKey
    ensures k in LoginStorage(st, role) <==> k in st
    ensures k in LogoutStorage(st) <==> k in st
    ensures k in st ==> LoginStorage(st, role)[k] == st[k] && LogoutStorage(st)[k] == st[k]
  {
  }

  // ---------------------------------------------------------------------
  // Tabs

  /** The tab a role lands on. */
  function HomeTab(role: string): (r: Tab)
    ensures TabFitsRole(role, r)
    ensures r == EmployerTab <==> role == "employer"
    ensures role != "employer" ==> r == MapTab
  {
    if role == "employer" then EmployerTab else MapTab
  }

  /** Whether a tab belongs to a role: employers have no map, list or
      applications tab; anyone else has no employer or candidates tab. */
  predicate TabFitsRole(role: string, tab: Tab)
  {
    if role == "employer" then !(tab == MapTab || tab == ListTab || tab == ApplicationsTab)
    else !(tab == EmployerTab || tab == CandidatesTab)
  }

  /** The tab after the role/tab correction. */
  function SyncedTab(authenticated: bool, role: string, tab: Tab): (r: Tab)
    ensures authenticated ==> TabFitsRole(role, r)
    ensures r != tab ==> authenticated && !TabFitsRole(role, tab) && r == HomeTab(role)
  {
    if authenticated then
      if role == "employer" then
        if tab == MapTab || tab == ListTab || tab == ApplicationsTab then EmployerTab else tab
      else
        if tab == EmployerTab || tab == CandidatesTab then MapTab else tab
    else
      tab
  }

  /** Correcting a corrected tab changes nothing. */
  lemma SyncedTabIdempotent(authenticated: bool, role: string, tab: Tab)
    ensures SyncedTab(authenticated, role, SyncedTab(authenticated, role, tab)) == SyncedTab(authenticated, role, tab)
  {
  }

  // ---------------------------------------------------------------------
  // Screens

  /** What the shell shows. */
  datatype Screen =
    | AuthScreen
    | NotificationsScreen(notifications: seq<AppNotification>)
    | JobDetailScreen(job: Job, isApplied: bool, isSaved: bool)
    | ProfileScreen(role: string, applications: nat, saved: nat)
    | MyApplicationsScreen
    | CandidatesScreen
    | EmployerPortalScreen
    | HomeScreen(view: ViewMode, shown: seq<Job>, unread: nat)

  /** Every field of the shell's state, for stating what a handler changes. */
  datatype AppSnapshot = AppSnapshot(
    isAuthenticated: bool,
    role: string,
    activeTab: Tab,
    viewMode: ViewMode,
    selectedJob: Option<Job>,
    jobs: seq<Job>,
    searchQuery: string,
    showNotifications: bool,
    applications: seq<Application>,
    savedJobIds: seq<string>,
    notifications: seq<AppNotification>,
    storage: Storage)

  /** The screen for a state: the first of notifications, the selected
      job, the profile, the role's own tabs and the home screen that
      applies. */
  function ScreenOf(s: AppSnapshot): (r: Screen)
    ensures r == AuthScreen <==> !s.isAuthenticated
    ensures r.MyApplicationsScreen? ==> s.role == "candidate" && s.activeTab == ApplicationsTab
    ensures r.CandidatesScreen? || r.EmployerPortalScreen? ==> s.role == "employer"
    ensures r.JobDetailScreen? ==> (s.selectedJob == Some(r.job)
      && (r.isApplied <==> exists a :: a in s.applications && a.jobId == r.job.id)
      && (r.isSaved <==> r.job.id in s.savedJobIds))
    ensures r.HomeScreen? ==> r.shown == FilteredJobs(s.jobs, s.searchQuery) && r.unread == UnreadCount(s.notifications)
  {
    if !s.isAuthenticated then AuthScreen
    else if s.showNotifications then NotificationsScreen(s.notifications)
    else if s.selectedJob.Some? then
      var job := s.selectedJob.value;
      JobDetailScreen(job, FindApplication(s.applications, job.id).Some?, job.id in s.savedJobIds)
    else if s.activeTab == ProfileTab then ProfileScreen(s.role, |s.applications|, |s.savedJobIds|)
    else if s.activeTab == ApplicationsTab && s.role == "candidate" then MyApplicationsScreen
    else if s.activeTab == CandidatesTab && s.role == "employer" then CandidatesScreen
    else if s.activeTab == EmployerTab && s.role == "employer" then EmployerPortalScreen
    else HomeScreen(s.viewMode, FilteredJobs(s.jobs, s.searchQuery), UnreadCount(s.notifications))
  }

  /** After the tab correction a signed-in employer never lands on the
      applications or home screen; this half is what the correction buys.
      A candidate never lands on an employer screen, which `ScreenOf`
      already guarantees on any tab. */
  lemma SyncedScreenFitsRole(s: AppSnapshot)
    requires s.isAuthenticated && !s.showNotifications && s.selectedJob.None?
    ensures var r := ScreenOf(s.(activeTab := SyncedTab(true, s.role, s.activeTab)));
      && (s.role == "employer" ==> !r.MyApplicationsScreen? && !r.HomeScreen?)
      && (s.role == "candidate" ==> !r.CandidatesScreen? && !r.EmployerPortalScreen?)
  {
  }

  // ---------------------------------------------------------------------
  // The shell's state

  class AppState {
    var isAuthenticated: bool
    var role: string
    var activeTab: Tab
    var viewMode: ViewMode
    var selectedJob: Option<Job>
    var jobs: seq<Job>
    var searchQuery: string
    var showNotifications: bool
    var applications: seq<Application>
    var savedJobIds: seq<string>
    var notifications: seq<AppNotification>
    var storage: Storage

    /** At most one application per job, and no id saved twice. */
    ghost predicate Valid()
      reads this
    {
      OnePerJob(applications) && NoDuplicates(savedJobIds)
    }

    function Snapshot(): AppSnapshot
      reads this
    {
      AppSnapshot(isAuthenticated, role, activeTab, viewMode, selectedJob, jobs, searchQuery,
                  showNotifications, applications, savedJobIds, notifications, storage)
    }

    /** A fresh shell: signed out, candidate, map tab, the sample jobs and
        nothing applied to, saved or notified; `st` is what the store holds. */
    constructor(now: string, st: Storage)
      ensures Valid()
      ensures Snapshot() == AppSnapshot(false, "candidate", MapTab, MapView, None, Fixtures.MockJobs(now), "",
                                        false, [], [], [], st)
    {
      isAuthenticated := false;
      role := "candidate";
      activeTab := MapTab;
      viewMode := MapView;
      selectedJob := None;
      jobs := Fixtures.MockJobs(now);
      searchQuery := "";
      showNotifications := false;
      applications := [];
      savedJobIds := [];
      notifications := [];
      storage := st;
    }

    /** Start-up: sign in again when the store holds a session. */
    method RestoreSession()
      requires Valid()
      modifies this
      ensures Valid()
      ensures var s := old(Snapshot());
        Snapshot() == match RestoredRole(s.storage)
          case Some(r) => s.(role := r, isAuthenticated := true)
          case None => s
    {
      var session := if SessionKey in storage then Some(storage[SessionKey]) else None;
      var storedRole := if UserTypeKey in storage then Some(storage[UserTypeKey]) else None;
      if session == Some("true") && storedRole.Some? && storedRole.value != "" {
        role := storedRole.value;
        isAuthenticated := true;
      }
    }

    /** Apply to a job: refused when an application to it exists already;
        otherwise a pending application by "me" is appended and the job
        detail closes. The id and the time are the caller's. */
    method Apply(job: Job, newId: string, now: string)
      requires Valid()
      modifies this
      ensures Valid()
      ensures var s := old(Snapshot());
        if FindApplication(s.applications, job.id).Some? then Snapshot() == s
        else Snapshot() == s.(applications := s.applications + [Application(newId, job.id, Me, Pending, now)],
                              selectedJob := None)
    {
      if FindApplication(applications, job.id).Some? {
        return;
      }
      var app := Application(newId, job.id, Me, Pending, now);
      ApplyKeepsOnePerJob(applications, app);
      applications := applications + [app];
      selectedJob := None;
    }

    /** Save or unsave a job. */
    method ToggleSave(jobId: string)
      requires Valid()
      modifies this
      ensures Valid()
      ensures Snapshot() == old(Snapshot()).(savedJobIds := Toggled(old(savedJobIds), jobId))
    {
      savedJobIds := Toggled(savedJobIds, jobId);
    }

    /** Mark the notifications with `id` as read. */
    method MarkRead(id: string)
      requires Valid()
      modifies this
      ensures Valid()
      ensures Snapshot() == old(Snapshot()).(notifications := WithRead(old(notifications), id))
    {
      notifications := WithRead(notifications, id);
    }

    /** Sign in as `r`, recording the session in the store. */
    method Login(r: UserRole)
      requires Valid()
      modifies this
      ensures Valid()
      ensures Snapshot() == old(Snapshot()).(role := RoleName(r), isAuthenticated := true,
                                             storage := LoginStorage(old(storage), r))
    {
      role := RoleName(r);
      isAuthenticated := true;
      storage := storage[SessionKey := "true"];
      storage := storage[UserTypeKey := RoleName(r)];
    }

    /** Sign out: the session keys leave the store, the notifications are
        dropped and the map tab is selected; the role stays. */
    method Logout()
      requires Valid()
      modifies this
      ensures Valid()
      ensures Snapshot() == old(Snapshot()).(isAuthenticated := false, storage := LogoutStorage(old(storage)),
                                             notifications := [], activeTab := MapTab)
    {
      isAuthenticated := false;
      ghost var before := storage;
      storage := storage - {SessionKey};
      storage := storage - {UserTypeKey};
      assert storage == LogoutStorage(before) by {
        assert storage.Keys == LogoutStorage(before).Keys;
      }
      notifications := [];
      activeTab := MapTab;
    }

    /** The role/tab correction that follows a change of role or of
        sign-in state. */
    method SyncTab()
      requires Valid()
      modifies this
      ensures Valid()
      ensures Snapshot() == old(Snapshot()).(activeTab := SyncedTab(old(isAuthenticated), old(role), old(activeTab)))
      ensures isAuthenticated ==> TabFitsRole(role, activeTab)
    {
      if isAuthenticated {
        if role == "employer" {
          if activeTab == MapTab || activeTab == ListTab || activeTab == ApplicationsTab {
            activeTab := EmployerTab;
          }
        } else {
          if activeTab == EmployerTab || activeTab == CandidatesTab {
            activeTab := MapTab;
          }
        }
      }
    }

    /** Switch role from the profile screen; the store follows. */
    method SwitchRole(r: UserRole)
      requires Valid()
      modifies this
      ensures Valid()
      ensures Snapshot() == old(Snapshot()).(role := RoleName(r), storage := old(storage)[UserTypeKey := RoleName(r)])
    {
      role := RoleName(r);
      storage := storage[UserTypeKey := RoleName(r)];
    }

    /** A job published from the employer portal goes first in the list. */
    method AddJob(job: Job)
      requires Valid()
      modifies this
      ensures Valid()
      ensures Snapshot() == old(Snapshot()).(jobs := [job] + old(jobs))
    {
      jobs := [job] + jobs;
    }
  }
}
