# Job marketplace front end — a verified model of its core

This project models the client-side core of a mobile job marketplace for
local, short-notice work. Candidates browse nearby jobs on a map or a list,
search them, save them and apply to them. Employers publish jobs. The model
covers four pieces of the application:

- **The map view** (`JobMap`). Every job is drawn at a position computed
  from its index in the list. At zoom levels 1 and 2 the positions are
  bucketed on a square grid (cells of 25 and 12 units), and every bucket of
  two or more jobs is drawn as one cluster marker at its members' mean
  position. The other jobs are single pins. The zoom runs from 1 to 3;
  clicking a cluster zooms in.
- **The application shell** (`App`). This is the signed-in user's state:
  role, tab, jobs, search query, applications, saved ids, notifications and
  the session store. It covers the handlers that change that state (apply,
  save or unsave, mark read, sign in, sign out, restore the session, switch
  role, publish a job, correct the tab for the role) and what the shell
  derives from it (the unread badge, the search results, the screen shown).
- **The "Minhas Vagas" screen** (`MyApplications`). It shows the applied jobs,
  one per application and in application order, and the saved jobs, in job
  list order. Each list sits under its own tab, with counters and an empty
  state.
- **The sign-in wizard** (`AuthFlow`). It has four steps: profile choice,
  login form, person registration and company registration. It also holds a
  role. The login handler hands the role on only with both fields filled;
  the registration handler hands it on without looking at any field. The
  browser's own form validation, which runs before either handler, is not
  part of the model.

`Types` holds the records (`Job`, `Application`, `AppNotification`,
`UserRole`) and shared facts about subsequences and filtering. `Fixtures`
holds the four sample jobs the application starts with. `JobMapSamples`
works the map out on those four jobs at each zoom level.

The grid the map builds is a dictionary whose keys are enumerated in
insertion order. Here it is a `map` from cells to buckets plus the sequence
of cells in order of first use (`CellsUpTo`). `ComputeClusters` builds it
with the source's two passes and is proved equal to the specification
function `Clusters`.

The fourth sample job is drawn at left 15 + (3 × 25) mod 70 = 20, and
`JobMapSamples.SampleAtZoom1` proves the resulting layout: the first and
fourth jobs form one cluster at (20, 17.5).

## Model

| member | source | states |
|---|---|---|
| `JobMap.PinPosition` | components/JobMap.tsx:27-28 | A pin's top is 20, 40 or 60, and its left is a multiple of 5 between 15 and 80. |
| `JobMap.PinPositionPeriodic` | components/JobMap.tsx:27-28 | Positions repeat every 42 indices, so jobs 42 places apart are drawn on top of each other. |
| `JobMap.CellSize` | components/JobMap.tsx:23 | The grid's cell size is 25 at zoom 1 and 12 at any other zoom. |
| `JobMap.CellOfIsFloor` | components/JobMap.tsx:27-31 | `CellOf`, the cell of the job at an index, is the `Math.floor` of its pin's left and top over the cell size: non-negative grid coordinates whose cell square, from size × coordinate up to size × (coordinate + 1), holds the pin. |
| `JobMap.CellsUpTo` | components/JobMap.tsx:26-34 | The grid's keys, in insertion order, never repeat a cell. |
| `JobMap.CellsUpToUsed` | components/JobMap.tsx:26-34 | A cell is a key of the grid exactly when some job's position falls in it. |
| `JobMap.Members` | components/JobMap.tsx:26-34 | A bucket keeps the list order of its jobs and holds every job whose cell it is. |
| `JobMap.MembersInCell` | components/JobMap.tsx:26-34 | Every job in a bucket comes from an index whose cell is that bucket's. |
| `JobMap.IndexOf` | components/JobMap.tsx:42 | `indexOf` gives the first index holding the job. |
| `JobMap.IndexOfUnique` | components/JobMap.tsx:42 | With unique ids, `indexOf` of the job at index i is i. |
| `JobMap.PositionSum` | components/JobMap.tsx:39-45 | The summed positions of n members lie between n times the least and n times the greatest pin coordinate. |
| `JobMap.MakeCluster` | components/JobMap.tsx:46-52 | A cluster carries its cell as id, its bucket as jobs, and the bucket's size as count. |
| `JobMap.MakeClusterMean` | components/JobMap.tsx:49-50 | A cluster's position times its count is the sum of its members' positions, and it lies in the range of pin positions. |
| `JobMap.ClusterAt` | components/JobMap.tsx:38-53 | A bucket yields a cluster exactly when it holds two or more jobs, and that cluster is the whole bucket. |
| `JobMap.ClustersOf` | components/JobMap.tsx:37-54 | The pass over the grid's entries yields at most one cluster per key. |
| `JobMap.EveryBigBucketClustered` | components/JobMap.tsx:37-54 | Every bucket of two or more jobs becomes a cluster with that cell's id. |
| `JobMap.ClusterIdsInKeyOrder` | components/JobMap.tsx:37-54 | Clusters come out in the order in which their cells were first used. |
| `JobMap.ClusterIdsDistinct` | components/JobMap.tsx:37-54 | No two clusters share an id. |
| `JobMap.Clusters` | components/JobMap.tsx:21-56 | The `clusters` memo: no clusters from zoom 3 up, and never more clusters than jobs. |
| `JobMap.ComputeClusters` | components/JobMap.tsx:21-56 | The two-pass computation (bucket every job, then turn every big bucket into a cluster at its mean) returns exactly the specified clusters, and none at zoom 3. |
| `JobMap.BuildGrid` | components/JobMap.tsx:24-34 | After the first pass, the grid's keys are the used cells in insertion order and each holds its bucket. |
| `JobMap.SumPositions` | components/JobMap.tsx:39-45 | The summing loop adds up each member's position at its `indexOf` index. |
| `JobMap.ClusteredIds` | components/JobMap.tsx:60 | The clustered ids are exactly the ids of the jobs in some cluster. |
| `JobMap.WithoutIds` | components/JobMap.tsx:60-61 | The pins keep the list order and are exactly the jobs whose id is not clustered. |
| `JobMap.IndividualPins` | components/JobMap.tsx:58-64 | The `individualPins` memo keeps list order; below zoom 3 it holds exactly the jobs whose id is not in `ClusteredIds`, and from zoom 3 all jobs. |
| `JobMap.FindIndexById` | components/JobMap.tsx:106 | `findIndex` gives the first index with the id, or -1 exactly when no job has it. |
| `JobMap.DrawnPinPosition` | components/JobMap.tsx:105-108 | A pin is drawn at a pin position: top 20, 40 or 60, left a multiple of 5 between 15 and 80. |
| `JobMap.SamePositionEverywhere` | components/JobMap.tsx:105-108 | With unique ids, a pin is drawn where its bucket and its cluster mean placed it. |
| `JobMap.NoClusteringAtMaxZoom` | components/JobMap.tsx:58-64 | At zoom 3 there are no clusters and every job is a pin. |
| `JobMap.FewJobsNoClusters` | components/JobMap.tsx:37-54 | Zero or one job never forms a cluster. |
| `JobMap.ClusterShape` | components/JobMap.tsx:37-54 | Every cluster holds two or more jobs of its own cell, and its position is their mean, within the pin range. |
| `JobMap.Partition` | components/JobMap.tsx:58-64 | With unique ids, each job is either a pin or in a cluster, never both. It is clustered exactly when its bucket holds two or more jobs, and then in exactly one cluster. |
| `JobMap.OrderKept` | components/JobMap.tsx:58-64 | Pins and each cluster's jobs keep the list order and repeat no job. |
| `JobMap.ZoomInNeverMerges` | components/JobMap.tsx:23-30 | Two jobs that share a cell at zoom 2 share one at zoom 1. |
| `JobMap.ClustersRefineWhenZoomingIn` | components/JobMap.tsx:21-56 | Every zoom-2 cluster lies inside some zoom-1 cluster: zooming in only splits clusters. |
| `JobMap.MapZoom.constructor` | components/JobMap.tsx:19 | The map opens at zoom 1. |
| `JobMap.MapZoom.ZoomIn` | components/JobMap.tsx:66 | Zoom in goes up one level, capped at 3. |
| `JobMap.MapZoom.ZoomOut` | components/JobMap.tsx:67 | Zoom out goes down one level, floored at 1. |
| `JobMap.MapZoom.ClickCluster` | components/JobMap.tsx:95 | Clicking a cluster zooms in like the button. |
| `JobMapSamples.SampleAtZoom1` | components/JobMap.tsx:21-64 | On the four sample jobs at zoom 1, jobs 1 and 4 form one cluster at (20, 17.5), and jobs 2 and 3 are pins. |
| `JobMapSamples.SampleAtZoom2` | components/JobMap.tsx:21-64 | At zoom 2 the sample forms the same cluster, in cell (1, 1). |
| `JobMapSamples.SampleAtZoom3` | components/JobMap.tsx:21-64 | At zoom 3 every sample job is a pin. |
| `Fixtures.MockJobs` | constants.tsx:13-66 | The four sample jobs have distinct ids, no status, and the start-up time as creation time. |
| `App.UnreadCount` | App.tsx:85 | The badge never exceeds the number of notifications, and is zero exactly when all are read. |
| `App.WithRead` | App.tsx:131-133 | Marking read flags exactly the notifications with that id and keeps the rest. |
| `App.MarkReadOnlyTouchesId` | App.tsx:131-133 | Marking read changes only the `read` flag, and only of the notifications with that id. |
| `App.MarkReadIdempotent` | App.tsx:131-133 | Marking the same id read twice is the same as once. |
| `App.MarkReadCount` | App.tsx:131-133 | Marking read lowers the badge by exactly the number of unread notifications with that id. |
| `App.MarkReadLowersUnread` | App.tsx:131-133 | The badge never rises, and drops exactly when an unread notification has that id. |
| `App.Lower` | App.tsx:89-90 | Lower-casing keeps the length, maps each character, and leaves no capital A to Z. |
| `App.LowerIdempotent` | App.tsx:89-90 | Lower-casing twice is lower-casing once. |
| `App.Contains` | App.tsx:89-90 | `includes` holds exactly when the query occurs at some index. |
| `App.ContainsEmpty` | App.tsx:89-90 | The empty query occurs in every text. |
| `App.FilteredJobs` | App.tsx:87-92 | The search results keep list order and are exactly the jobs whose title or company contains the query, ignoring case (`Matches`). |
| `App.EmptyQueryKeepsAll` | App.tsx:87-92 | An empty search shows every job, in order. |
| `App.SearchIgnoresQueryCase` | App.tsx:87-92 | Searching for the lower-cased query gives the same results. |
| `App.Others` | App.tsx:112 | Unsaving keeps the other ids in their order. |
| `App.Toggled` | App.tsx:110-114 | Toggling flips whether the id is saved, leaves every other id as it was, appends an unsaved id at the end, and never creates a repeat. |
| `App.ToggleTwiceRestores` | App.tsx:110-114 | Saving and then unsaving a job restores the saved list. |
| `App.FindApplication` | App.tsx:95 | `find` gives the first application to the job, or nothing exactly when none is for it. |
| `App.ApplyKeepsOnePerJob` | App.tsx:94-108 | Appending an application for a job not yet applied to keeps one application per job. |
| `App.RestoredRole` | App.tsx:34-41 | Start-up restores a role exactly when the session flag is "true" and the stored user type is non-empty, and the role restored is that stored type. |
| `App.LoginStorage` | App.tsx:119-120 | Signing in adds the two session keys to the store, the flag as "true" and the user type as the role's name. |
| `App.LogoutStorage` | App.tsx:125-126 | Signing out removes exactly the two session keys and keeps every other entry. |
| `App.RestoreAfterLogin` | App.tsx:116-121 | A start-up after signing in restores the role signed in with. |
| `App.RestoreAfterLogout` | App.tsx:123-129 | A start-up after signing out restores nothing. |
| `App.SessionKeepsOtherKeys` | App.tsx:116-129 | Signing in and out touch only the two session keys of the store. |
| `App.HomeTab` | App.tsx:75-79 | The tab a correction lands on fits the role (`TabFitsRole`). It is the employer tab for an employer (line 75) and the map tab for anyone else (line 79). |
| `App.SyncedTab` | App.tsx:71-83 | Once signed in, the corrected tab belongs to the role (`TabFitsRole`), and a tab changes only if it did not belong, to the role's home tab. |
| `App.SyncedTabIdempotent` | App.tsx:71-83 | Correcting a corrected tab changes nothing. |
| `App.ScreenOf` | App.tsx:135-218 | Signed out shows the wizard. The detail screen reports applied and saved exactly as recorded. Candidate and employer screens need their role. The home screen shows the search results and the badge. |
| `App.SyncedScreenFitsRole` | App.tsx:71-83 | After the tab correction, an employer never lands on the candidate screens, and only this half relies on the correction. A candidate never reaches the employer screens, which `ScreenOf` gates by role on any tab. |
| `App.AppState.constructor` | App.tsx:19-31 | The shell starts signed out as a candidate on the map tab, with the sample jobs and nothing applied to, saved or notified. |
| `App.AppState.RestoreSession` | App.tsx:34-41 | Start-up signs in with the restored role when there is one and changes nothing else. |
| `App.AppState.Apply` | App.tsx:94-108 | A second application to the same job changes nothing. Otherwise one pending application by "me" is appended and the detail closes. One application per job is kept. |
| `App.AppState.ToggleSave` | App.tsx:110-114 | Only the saved ids change, by a toggle, and they stay free of repeats. |
| `App.AppState.MarkRead` | App.tsx:131-133 | Only the notifications change, by marking that id read. |
| `App.AppState.Login` | App.tsx:116-121 | Signing in sets the role, the signed-in flag and the two store keys, and nothing else. |
| `App.AppState.Logout` | App.tsx:123-129 | Signing out clears the flag, the two store keys and the notifications, and selects the map tab. The role stays. |
| `App.AppState.SyncTab` | App.tsx:71-83 | The tab correction changes only the tab, and leaves a signed-in user on a tab of their role (`TabFitsRole`). |
| `App.AppState.SwitchRole` | App.tsx:172 | Switching role changes the role and its store key only. |
| `App.AppState.AddJob` | App.tsx:194 | A published job goes first in the list and nothing else changes. |
| `MyApplications.FindJob` | components/MyApplications.tsx:15 | The lookup finds nothing exactly when no job has the id, and otherwise a job of the list with that id. |
| `MyApplications.FindJobFirst` | components/MyApplications.tsx:15 | The lookup finds the first job with the id. |
| `MyApplications.FindJobUnique` | components/MyApplications.tsx:15 | With unique ids, looking a job up by its id finds that job. |
| `MyApplications.AppliedJobs` | components/MyApplications.tsx:15 | There are never more applied jobs than applications, and every one is in the job list. |
| `MyApplications.AppliedJobsAppend` | components/MyApplications.tsx:15 | Applied jobs follow application order: those of two runs of applications are the first run's followed by the second's. |
| `MyApplications.AppliedJobsComplete` | components/MyApplications.tsx:15 | Every application shows a job exactly when every application's job is still listed. |
| `MyApplications.AppliedJobsMembers` | components/MyApplications.tsx:15 | A shown job is one some application is for, and with unique ids every such listed job is shown. |
| `MyApplications.AppliedAfterApply` | components/MyApplications.tsx:15 | The shell's new application for a listed job adds exactly that job at the end of the applied jobs. |
| `MyApplications.SavedJobs` | components/MyApplications.tsx:16 | The saved jobs keep job list order and are exactly the listed jobs whose id is saved. |
| `MyApplications.SavedJobsIgnoreSaveOrder` | components/MyApplications.tsx:16 | The order of saving does not matter; only which ids are saved does. |
| `MyApplications.SavedAfterToggle` | components/MyApplications.tsx:16 | Toggling a listed job adds it to, or removes it from, the saved jobs, and the saved counter moves by one; every other job keeps its saved state. |
| `MyApplications.DisplayJobs` | components/MyApplications.tsx:18 | A tab shows only listed jobs, and the saved tab only saved ones. |
| `MyApplications.Render` | components/MyApplications.tsx:18-40 | The counters are the two list lengths, the cards are the tab's jobs, and the empty state shows exactly when there is no card. |
| `MyApplications.AppliedEmptyState` | components/MyApplications.tsx:40 | The applied tab is empty exactly when no application's job is listed. |
| `MyApplications.SavedEmptyState` | components/MyApplications.tsx:40 | The saved tab is empty exactly when no listed job is saved. |
| `AuthFlow.RegisterStepFor` | components/AuthFlow.tsx:155 | "Criar conta" opens the person's form for a candidate and the company's form for an employer. |
| `AuthFlow.Rendered` | components/AuthFlow.tsx:288-291 | Exactly one screen is drawn, the one of the current step. |
| `AuthFlow.AuthFlow.constructor` | components/AuthFlow.tsx:12-15 | The wizard opens on the profile choice, as a candidate, with empty fields. |
| `AuthFlow.AuthFlow.ChooseRole` | components/AuthFlow.tsx:65-78 | Picking a profile sets the role and opens the login form. |
| `AuthFlow.AuthFlow.SetEmail` | components/AuthFlow.tsx:115 | Typing the e-mail changes only the e-mail. |
| `AuthFlow.AuthFlow.SetPassword` | components/AuthFlow.tsx:126 | Typing the password changes only the password. |
| `AuthFlow.AuthFlow.SubmitLogin` | components/AuthFlow.tsx:30-35 | A login hands on the role exactly when the button is enabled (`LoginButtonDisabled`, line 145): both fields are filled. |
| `AuthFlow.AuthFlow.SubmitRegister` | components/AuthFlow.tsx:37-40 | A registration always hands on the role, and it is the role of the form submitted. |
| `AuthFlow.AuthFlow.CreateAccount` | components/AuthFlow.tsx:155 | "Criar conta" opens the role's registration form and keeps the role. |
| `AuthFlow.AuthFlow.BackToUserType` | components/AuthFlow.tsx:95 | Back from login returns to the profile choice and keeps the role. |
| `AuthFlow.AuthFlow.BackToLogin` | components/AuthFlow.tsx:166 | Back from either registration form (also line 235) returns to login and keeps the role. |
| `AuthFlow.RegisterAndBack` | components/AuthFlow.tsx:155-166 | Opening registration and going back restores the login form with the role and fields unchanged. |
| `AuthFlow.SignIn` | components/AuthFlow.tsx:30-35 | Picking a profile, typing both fields and submitting reaches the login handler, which hands on the role picked exactly when both fields are filled. |
| `AuthFlow.Register` | components/AuthFlow.tsx:37-40 | Picking a profile, opening its form and submitting reaches the registration handler, which hands on the role picked without reading any field. |

## Left out

- The AI job matching (services/gemini.ts) and the simulated match alerts (App.tsx:44-68) are not part of this model. They depend on a timer and a network call.
- The "already applied" `alert` (App.tsx:96) is a dialog. The model keeps only the early return, which changes nothing.
- The random application id and the current time (App.tsx:100, 104; constants.tsx) come from the environment, so they are parameters (`newId`, `now`).
- Fixtures.MockJobs: takes one time `now` for all four `createdAt` fields, where constants.tsx reads the clock once per job (lines 25, 38, 51 and 64). The four reads are modelled as one, so the model does not capture the few milliseconds between them.
- App.Lower: changes only the letters A to Z. The browser's `toLowerCase` also lower-cases accented and other non-ASCII capitals, so the search is modelled exactly only for ASCII text.
- The cluster id is the string `x-y` built from the grid coordinates. Here it is the pair `CellKey(x, y)`, which distinguishes the same cells because the coordinates are non-negative.
- `Math.floor` of a non-negative quotient is Dafny's integer division, so the grid coordinates are exact. The cluster means are exact rationals here; the source computes them in floating point.
- The proofs that the map's pins and clusters partition the jobs (`JobMap.Partition`, `JobMap.OrderKept`, `JobMap.SamePositionEverywhere`) assume unique job ids. When the list holds the same job object twice, the model still computes what the code does, but those lemmas say nothing.
- JobMap.IndexOf: finds the first job EQUAL in value, where the source's `indexOf` (components/JobMap.tsx:42) finds the same object by reference. Two distinct job objects with identical fields therefore share the first one's position in a cluster's mean here. For example, with jobs A, B, C and a copy of A at zoom 1, the source averages left 15 and 20 to 17.5, while the model gives 15. Jobs are values in this model, so object identity is not represented.
- The map's CSS scaling, animations and colours are presentation only.
- The profile, employer portal, candidate list, job detail, job list, header, bottom navigation, notifications and video résumé components are not part of this model. Their effect on the shell is modelled where the shell passes them a handler: role switch, sign-out, publish, apply, save and mark read.
- The plain setters the shell passes to its children are not modelled as methods: selecting or closing a job, the search text, the view mode, opening or closing notifications, clearing all notifications (App.tsx:146), and picking a tab. Each assigns one field of `AppSnapshot`.
- React runs the role/tab correction as an effect after a render in which the role or the sign-in state changed (App.tsx:71-83). Here it is the explicit method `App.AppState.SyncTab`, to be called after such a change.
- The wizard's name, company name, show-password and photo fields (components/AuthFlow.tsx:16-19, 42-49) are not read by any handler and are not modelled. The registration forms' e-mail and password inputs are uncontrolled.
- AuthFlow.AuthFlow.SubmitLogin, AuthFlow.AuthFlow.SubmitRegister, AuthFlow.SignIn and AuthFlow.Register: model the submit handlers only. In the browser, the forms' `required` fields (components/AuthFlow.tsx:113, 124, 195, 207, 217, 248, 260, 270) and the `type="email"` inputs (lines 112, 206, 259) block a submit with an empty field or a malformed e-mail before the handler runs. That validation is not modelled, so a registration here goes through with empty fields, and a login with a malformed e-mail.
- `AuthFlow.AuthFlow.SetEmail`, `SetPassword` and `SubmitLogin` require the login step, because those inputs and that form exist only on the login screen.
