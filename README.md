# Organization reconciliation, modelled in Dafny

This project models the two scripts that keep a code-hosting organization in
line with its configuration documents:

- **`generate.py`** reads three documents. The roster document maps each team
  slug to its `members` and `representatives`. The repository document maps
  each repository name to its steward team (`psc`), `maintainers` and
  `branches`. The configuration names the owner team, the maintainer teams and
  the run's global `maintainers`.
  - The **team pass** gets or creates every team in the roster. It revokes the
    live logins that are desired in neither role. It then upserts every desired
    login that does not already hold its role.
  - The **repository pass** creates every repository the organization lacks,
    under the owner team, and grants admin on it to every maintainer team. It
    grants the steward push access when the repository is missing from the
    steward's repository list. That list is fetched at the steward's first use
    and kept in a cache. The pass then adds the maintainers as collaborators and
    bootstraps every listed branch the repository lacks.
  - A **bootstrap** (`create_branch`) expands the template in a scratch
    workspace and commits it under the user's identity. It then creates the
    branch and pushes it, with the token embedded in the push address. The
    workspace is removed on every exit path.
- **`fill_data.py`** writes those documents from the live organization. It
  drops two excluded teams and three bot logins. A repository's steward is its
  first team other than `board`.

## How the model works

- Every call to the remote, and every local effect of a bootstrap, is an
  `Event` appended to a trace (`events.dfy`).
- The remote's replies are inputs: lookups, listings, the user's profile and
  e-mails, and which external commands fail.
- Each loop of the scripts is a method with a `while` loop. Each method is
  proved equal to a specification function. The properties are lemmas about
  those functions.

The modules are:

- `Membership` — the team pass.
- `Bootstrap` — `create_branch`.
- `Repositories` — the repository pass and its cache.
- `FillData` — the extraction script.
- `Pipeline` — the two scripts together.

### Behaviour worth knowing

- **Grant order.** For every repository, the push grant to the steward and the
  collaborator additions are issued before its branches are bootstrapped.
- **Failures.** Any bootstrap failure ends the whole run, template failures
  included. Only a failing git command (`CalledProcessError`) is logged before
  it is re-raised. An e-mail that is `None` makes the `git config user.email`
  call raise a type error. That call starts no process and writes no log.
- **Missing keys.** A repository entry without `psc` or without `branches`
  stops the run after the calls already made for that repository; `branches`
  has no default. A configuration without `maintainers` stops the team pass
  right after the first team's get-or-create.
- **Idempotence.** Minimality and idempotence of the team pass hold only when
  no login is desired in both roles. A login that is both a global maintainer
  (or a member) and a representative changes role on every run:
  `Membership.BothRolesNeverSettle` proves this, and `Membership.SecondPassIsEmpty`
  proves idempotence for the disjoint case. The repository pass is idempotent
  apart from its collaborator additions. A second pass over the remote that
  a completed pass left behind only adds the same collaborators again
  (`Repositories.SecondPassOnlyRepeatsCollaborators`).
- **Steward lists.** A steward's list is fetched at its first use, after that
  repository's creation and admin grants. When the steward is the owner team
  or a maintainer team, a new repository is then already in the list and gets
  no push grant (`Repositories.FreshStewardSeesNewRepository`). The list is
  not fetched again: a repository created later under the same team is absent
  from the cached list and gets a push grant (`Repositories.VisitPushGrant`).

## Model

| member | source | states |
|---|---|---|
| Membership.GetOrCreateTeam | generate.py:134-137 | A team that is found costs no call. A lookup that raises NotFound creates exactly one team, named after the slug, with privacy "closed". |
| Membership.ReconcileTeam | generate.py:140-164 | The four loops of one team issue exactly `TeamCalls`. In order, these are the revocations from the member-role scan, those from the maintainer-role scan, the member upserts and the maintainer upserts. |
| Membership.ScanRole | generate.py:143-156 | One scan of the logins holding a role issues exactly `Revocations`: a revocation for each login desired in neither role. It also returns exactly `Confirmed`: the logins desired in that role, in live order. |
| Membership.AddMissing | generate.py:157-164 | One scan of a desired list issues exactly `Additions`: an upsert into the role for each occurrence of a login that was not confirmed. |
| Membership.ReconcileTeams | generate.py:132-164 | The roster loop issues, team by team in document order, get-or-create followed by that team's diff (`TeamPass`). Desired members are the entry's `members` (default empty) followed by the run's `maintainers`. Desired representatives default to empty. Without a `maintainers` key the run stops right after the first team's get-or-create. |
| Membership.MissingMaintainersStopsAtFirstTeam | generate.py:132-138 | The team pass completes exactly when the `maintainers` key is present or the roster is empty. Without the key its only call is the first team's get-or-create: a creation when that team is missing, nothing when it exists. |
| Membership.RevocationGuard | generate.py:143-156 | A login is revoked as many times as it is listed live when it appears in neither desired list, and never otherwise. |
| Membership.RevokedExactlyWhen | generate.py:143-156 | A login is revoked exactly when some role lists it live and it is in neither desired list. No desired login is ever revoked. |
| Membership.UpsertRule | generate.py:138-164 | Each occurrence of a login in the desired members gets a member upsert exactly when the login is not a live member. Each occurrence in the desired representatives gets a maintainer upsert exactly when the login is not a live maintainer. |
| Membership.RevocationsFirst | generate.py:143-164 | Every call of a team is a revocation or an upsert of that team. No revocation follows an upsert. |
| Membership.FixedPoint | generate.py:143-164 | When the live member logins are exactly the desired members, and the live maintainer logins exactly the desired representatives, the team pass issues no call. |
| Membership.DemotionAndPromotion | generate.py:143-164 | A live maintainer desired only as a member is demoted by an upsert and not revoked. A live member desired only as a representative is promoted and not revoked. |
| Membership.AfterPass | generate.py:143-164 | Once the remote has applied one team pass, its role map is the old map, minus the revoked logins, updated with the member upserts and then with the maintainer upserts. |
| Membership.RolesAfterPass | generate.py:143-164 | After one applied pass: a login desired in neither role holds no role; a login desired in one role holds that role; a login desired in both holds member exactly when it was a maintainer before. |
| Membership.SecondPassIsEmpty | generate.py:132-164 | When no login is desired in both roles, a second pass over what the remote then lists issues no call. |
| Membership.BothRolesNeverSettle | generate.py:138-164 | A login desired in both roles changes the role it holds on every pass, so the pass is never empty. |
| Membership.RosterRevokesOnlyUndesired | generate.py:132-156 | Across the roster, every revocation names a listed team and a login that team lists live, and that team's entry desires the login in neither role. |
| Membership.RosterFixedPoint | generate.py:132-164 | A roster whose teams all exist and already hold exactly their desired roles produces no call. |
| Bootstrap.CommitName | generate.py:58-62 | The commit name is the profile name when it is set and not empty, otherwise the login. |
| Bootstrap.FirstPrimary | generate.py:64-68 | The chosen address is that of the first entry marked primary. There is none exactly when no entry is primary. |
| Bootstrap.PrimaryEmail | generate.py:65-68 | The scan that stops at the first primary entry returns `FirstPrimary`. |
| Bootstrap.CommitEmail | generate.py:63-69 | The commit e-mail is the profile e-mail when it is set and not empty. Otherwise it is the first primary address, when there is one. With neither, it stays what the profile held. |
| Bootstrap.ResolveEmail | generate.py:63-69 | The e-mail fallback computes `CommitEmail`. |
| Bootstrap.RunSteps | generate.py:44-100 | The template expansion and the nine `check_call` steps of the `try` block leave exactly the progress `RunAll` gives for the planned commands. |
| Bootstrap.PushUrlCarriesToken | generate.py:86-96 | The push address is `https://{token}@github.com/{org}/{repo}`. Its user-info part is exactly the token, when the token holds no '@'. |
| Bootstrap.CheckCall | generate.py:22-38 | One more step runs only if no earlier step raised. The progress then equals `RunAll` over the steps so far. |
| Bootstrap.CreateBranch | generate.py:41-105 | The method's effects and outcome are exactly `BranchEffects`. That is the planned steps (the template expansion, then nine git commands) run until the first one raises, wrapped in the `except` log and the `finally` removal. |
| Bootstrap.RunAllClean | generate.py:44-100 | No step raises exactly when every step's check succeeds. Every step then runs, in order. |
| Bootstrap.RunAllStopsAtFirstRaise | generate.py:41-103 | When a step raises, it is the first step that can. The steps before it ran in order, and nothing after it ran. |
| Bootstrap.WorkspaceAlwaysRemoved | generate.py:41-105 | On every path the workspace is acquired first and removed last, exactly once each. |
| Bootstrap.BootstrapEffectsAreLocal | generate.py:41-105 | A bootstrap's effects are the workspace, planned steps and the failure log. It makes no call to the remote platform. |
| Bootstrap.FailuresAreReraised | generate.py:101-105 | The call ends `Done` exactly when no step raises. The error is logged exactly when the failure is a git failure. A failure is re-raised as what the first raising step raised, after the steps up to it. |
| Bootstrap.SuccessRunsEveryStep | generate.py:44-105 | On success every planned step ran once in order between acquire and remove, and the commit e-mail was known. |
| Bootstrap.ExpansionRunsFirst | generate.py:44-53 | The template expansion with the requested repository name, slug and version is the first effect after acquiring the workspace. No other expansion runs. |
| Repositories.RepositoryPass | generate.py:166-190 | The loop's trace, cache, fetch count and status are exactly `Passes` over the documents. |
| Repositories.ProcessRepository | generate.py:167-190 | One iteration's calls, cache, fetches and status are exactly `VisitRepository`. That is: create and admin-grant when absent; abort on a missing `psc` or an unknown steward; on a steward's first use, fetch its list as the remote reports it after the calls so far, this iteration's included, and cache it; push-grant when absent from the cached list; add collaborators; abort on missing `branches`; bootstrap. |
| Repositories.ProvisionRepository | generate.py:168-175 | An absent repository is created under the owner team, with its own name as description, then admin-granted to every maintainer team in order (`Provision`). An existing one is left alone and its branches are read. |
| Repositories.GrantAdmins | generate.py:170-171 | The loop grants admin on the repository to each maintainer team, in order (`AdminGrants`). |
| Repositories.LookUpSteward | generate.py:176-181 | The steward is found exactly when it is cached or exists. On first use its list is fetched once, after the calls so far, and cached (`Fetched`). A cached steward costs no fetch. |
| Repositories.ServeRepository | generate.py:182-190 | With the steward's list cached: push-grant unless the list holds the repository, add the maintainers, abort on missing `branches`, else bootstrap the branches (`WithSteward`). |
| Repositories.AddCollaborators | generate.py:186-187 | The loop adds each maintainer as a collaborator, in order (`Collaborators`). |
| Repositories.BootstrapBranches | generate.py:188-190 | The branch loop bootstraps each listed branch absent from the existing branches, and stops at the first failure (`Bootstraps`). |
| Repositories.AbortIsFinal | generate.py:167-190 | Once a repository aborts the pass, no later document has any effect. |
| Repositories.BranchAbortIsFinal | generate.py:188-190 | Once a bootstrap fails, no later branch of that repository is bootstrapped. |
| Repositories.CacheMirrorsRemote | generate.py:176-181 | The cache holds each steward's repository list as the remote reported it at some point of the pass: the list the pass started with, plus every repository the pass's calls up to then created under that team or granted to it. Only stewards the documents name are cached. The fetch count equals the number of cached teams. A completed pass has cached every named steward. |
| Repositories.VisitCaches | generate.py:176-181 | An iteration keeps every cached list unchanged and caches at most its own steward. A new list is read after the iteration's creation and admin grants, and costs one fetch. |
| Repositories.CacheIsKept | generate.py:176-181 | Once cached, a steward's list never changes for the rest of the pass. |
| Repositories.NewRepositoryListed | generate.py:168-181 | A list read after a new repository's creation and admin grants holds that repository, for the owner team and for every maintainer team. |
| Repositories.VisitPushGrant | generate.py:176-184 | An iteration that reaches its steward grants it push exactly when the cached list lacks the repository. |
| Repositories.FreshStewardSeesNewRepository | generate.py:168-184 | A steward used for the first time on a repository created in that iteration gets no push grant when it is the owner team or a maintainer team, because its fetched list already holds the repository. |
| Repositories.SharedStewardFetchedOnce | generate.py:176-181 | However many repositories name the same steward, its list is fetched at most once, and exactly once by a pass that completes. |
| Repositories.EveryCallExplained | generate.py:166-190 | Every event of a pass is called for by some document entry. Creations and admin grants are only for absent repositories. A push grant goes only to the entry's steward, when the repository is absent from its list as fetched. Collaborators are only the entry's maintainers. Workspace events, git runs, expansions and the failure log all come from bootstrapping a listed branch the repository lacked, and an expansion names that branch. There is no team or membership call. |
| Repositories.BootstrapsFromBranches | generate.py:188-190 | Every effect of the branch loop belongs to the bootstrap of one listed branch that the repository lacked. |
| Repositories.BootstrapsComplete | generate.py:188-190 | A branch run that does not abort bootstrapped every listed branch the repository lacked, each to completion. |
| Repositories.EveryDocApplied | generate.py:166-190 | A pass that completes has applied every entry. It created each absent repository under the owner team, with admin for every maintainer team. It granted push where the steward's list as fetched lacked the repository and added every maintainer. Each missing branch was bootstrapped successfully; a new repository counts as having no branches. |
| Repositories.CallsExactly | generate.py:168-190 | For a completed pass over distinct names: a repository is created exactly when it was absent. It is granted push exactly when its steward's list, as fetched, lacked it. It is bootstrapped on exactly the listed branches it lacked. |
| Repositories.ReposAfterCovers | generate.py:168-190 | Applying a pass's calls to the remote removes no repository and no branch. |
| Repositories.ReposAfterRecords | generate.py:168-190 | Each repository a call created, and each branch a call bootstrapped, is on the remote after the calls. |
| Repositories.InSyncAfter | generate.py:166-190 | After a pass that applied an entry, the remote as the pass left it holds the repository and every branch it lists, and the steward's list holds the repository. |
| Repositories.OnlyCollaboratorsExplained | generate.py:166-190 | Against a remote in sync with an entry, the only call the entry can cause is adding one of its maintainers. |
| Repositories.SecondPassOnlyRepeatsCollaborators | generate.py:166-190 | Running the repository pass again, on the remote a completed pass left behind, creates no repository, grants no team and bootstraps no branch. Its only calls are collaborator additions the first pass already made. |
| FillData.WithoutBots | fill_data.py:15-22 | A login is kept exactly when it is listed and is not one of the three bots. |
| FillData.WithoutBotsAppend | fill_data.py:15-22 | Filtering commutes with concatenation, so the kept logins stay in listing order. |
| FillData.WithoutBotsCount | fill_data.py:15-22 | Each non-bot login is kept as often as it is listed. No bot is kept. |
| FillData.WithoutBotsKeepsHumans | fill_data.py:15-22 | A listing without bots is kept whole. |
| FillData.DropBots | fill_data.py:15-22 | The append loop that skips bots computes `WithoutBots`. |
| FillData.ExtractTeams | fill_data.py:9-23 | The team loop builds exactly `Roster`. |
| FillData.RosterKeys | fill_data.py:11-23 | The roster has an entry for exactly the listed teams whose slug is not `oca-contributors` or `oca-members`. |
| FillData.RosterEntries | fill_data.py:14-23 | Each entry comes from the last listed team with that slug. It carries the team's name, its member-role logins as `members` and its maintainer-role logins as `representatives`, without bots. |
| FillData.NoBotsInRoster | fill_data.py:15-23 | No bot login appears in any entry's members or representatives. |
| FillData.FirstSteward | fill_data.py:32-39 | The steward is `board` exactly when every listed team is `board`. Otherwise it is the first listed slug that is not `board`. |
| FillData.StewardOf | fill_data.py:32-39 | The loop with `break` and the swallowed NotFoundError returns `FirstSteward` of the slugs listed before the listing ended. |
| FillData.ExtractRepos | fill_data.py:30-40 | The repository loop builds exactly `RepoDocs`. |
| FillData.RepoDocsKeys | fill_data.py:30-40 | Every listed repository, and nothing else, has an entry. |
| FillData.RepoDocsValues | fill_data.py:31-40 | A repository's entry holds its description under `name` and its steward; with equal names the last one listed wins. |
| Pipeline.ExtractedTeamIsSettled | fill_data.py:14-23 | Reconciling a team against the entry just extracted from it revokes exactly its bots that are not run maintainers. It adds as members exactly the run maintainers it lacks, and adds no maintainer. |
| Pipeline.ExtractedReposStopThePass | generate.py:176-188 | The extracted repository document, fed to the repository pass unchanged, stops the pass at its first repository. Either its steward is not found, or it has no `branches`. |

## Left out

- YAML loading and dumping, `sys.argv`, logging configuration and the informational log lines. The documents are inputs as sequences of (key, entry) pairs in document order. Only the error log of a failed bootstrap is an event.
- The body of `check_call` (generate.py:22-38), including its own logging of the command output. Each external step is an effect that succeeds or raises, as decided by the input `failing`, which names the commands that fail separately for each repository and branch bootstrapped.
- The template engine (`copier.run_auto`): it is a foreign library. It is the abstract step `Expand`, which may fail.
- Creating and removing the scratch directory. These are the events `AcquireWorkspace` and `RemoveWorkspace`, and their own failures are not modelled.
- Failures of remote calls other than the NotFound of a team lookup: rate limits, forbidden, transient errors, failures of create, revoke, upsert, grant and collaborator calls, and of `gh.me()` and `gh.emails()`. These calls are taken to succeed.
- Pagination: each listing is one complete sequence.
- The setup lookups (generate.py:122-130). The owner team, the maintainer teams and the organization's repository names and branches are inputs.
- `gh_repo.url`: the repository's address is the input `Remote.url`.
- The composition of the two passes of `generate.py`. The repository pass starts from the steward teams' repository lists as the remote reports them after the team pass, so a team created by the team pass appears there with its (empty) list. What the repository pass itself creates or grants is added to those lists by `Listing`.
- `RemoteAfter`, the remote after a pass, credits a branch to its repository when its template expansion is issued. This is exact for a pass that completes, where every bootstrap pushed its branch; it is not used for passes that abort.
- The order of a fetched repository list: the pass only asks whether a name is in it.
- Bootstrap outcomes are keyed by repository and branch. A branch listed twice for one repository is bootstrapped twice, and both runs fail or succeed alike.
- The `name` (description) key of the repository document. `generate.py` never reads it: a new repository gets its own name as description.
- The login and organization lookup of `fill_data.py` (fill_data.py:4-9) and the files it writes.
