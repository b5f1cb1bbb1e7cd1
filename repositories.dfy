/** The repository pass of the generator (generate.py:166-190): for each
    repository document, in document order, create the repository when the
    organization lacks it, grant its steward team ("psc") push access when
    the steward's repository list lacks it, add its maintainers as
    collaborators, and bootstrap each required branch the repository lacks.
    Each steward's repository list is fetched once and kept in a cache. */
module Repositories {
  import opened Events
  import opened Bootstrap

  /** The run's fixed inputs: the bootstrap environment (credential,
      organization, template, identity), the owner team new repositories are
      created under, and the maintainer teams granted admin on them. */
  datatype Setup = Setup(env: Env, owner: string, adminTeams: seq<string>)

  /** The remote as the pass finds it: the organization's repositories with
      their branch names, the repository names of every team that exists,
      and the address of each repository. What the pass's own calls change
      is read back through `Listing`. */
  datatype Remote = Remote(repos: map<string, seq<string>>,
                           teamRepos: map<string, seq<string>>,
                           url: string -> string)

  /** One entry of the repository document; `name` (the description) is not
      read by the pass. */
  datatype RepoEntry = RepoEntry(psc: Option<string>,
                                 maintainers: Option<seq<string>>,
                                 branches: Option<seq<string>>)

  /** Why a pass stopped: a document without `psc` (a `KeyError`), a steward
      team that does not exist (`NotFoundError`), a document without
      `branches` (iterating `None`), or a bootstrap that raised. */
  datatype Abort =
    | MissingSteward(repo: string)
    | StewardNotFound(team: string)
    | MissingBranches(repo: string)
    | BootstrapFailed(repo: string, branch: string, failure: Failure)

  datatype Status = Running | Aborted(reason: Abort)

  /** The trace so far, the steward cache (`team_repos`), the number of
      repository lists fetched, and whether the pass is still running. */
  datatype Pass = Pass(trace: seq<Event>, cache: map<string, seq<string>>, fetches: nat, status: Status)

  function FullName(org: string, repo: string): string
  {
    org + "/" + repo
  }

  // ---------------------------------------------------------------------
  // Specification
  // ---------------------------------------------------------------------

  function AdminGrants(teams: seq<string>, fullName: string): seq<Event>
  {
    if teams == [] then []
    else AdminGrants(teams[..|teams| - 1], fullName) + [AddRepository(teams[|teams| - 1], fullName, "admin")]
  }

  function Collaborators(repo: string, logins: seq<string>): seq<Event>
  {
    if logins == [] then []
    else Collaborators(repo, logins[..|logins| - 1]) + [AddCollaborator(repo, logins[|logins| - 1])]
  }

  /** The repository names `team` gained access to through the calls in
      `trace`: those created with it as owner, and those granted to it. */
  function Gained(org: string, trace: seq<Event>, team: string): seq<string>
  {
    if trace == [] then []
    else Gained(org, trace[..|trace| - 1], team) + GainedBy(org, trace[|trace| - 1], team)
  }

  function GainedBy(org: string, e: Event, team: string): seq<string>
  {
    match e
    case CreateRepository(n, _, owner) => if owner == team then [n] else []
    case AddRepository(t, f, _) =>
      if t == team && |org| + 1 <= |f| && f[..|org| + 1] == org + "/" then [f[|org| + 1..]] else []
    case _ => []
  }

  /** A team's repository list (`gh_team.repositories()`) as the remote
      reports it once the pass has made the calls in `trace`. */
  function Listing(org: string, remote: Remote, trace: seq<Event>, team: string): seq<string>
    requires team in remote.teamRepos
  {
    remote.teamRepos[team] + Gained(org, trace, team)
  }

  /** A repository the organization lacks is created under the owner team and
      every maintainer team is granted admin on it. */
  function Provision(setup: Setup, remote: Remote, name: string): seq<Event>
  {
    if name in remote.repos then []
    else [CreateRepository(name, name, setup.owner)] + AdminGrants(setup.adminTeams, FullName(setup.env.org, name))
  }

  /** The branches a repository starts the pass with; a new one has none. */
  function ExistingBranches(remote: Remote, name: string): seq<string>
  {
    if name in remote.repos then remote.repos[name] else []
  }

  /** The calls part of an iteration made, and whether the pass goes on. */
  datatype Stage = Stage(effects: seq<Event>, status: Status)

  /** Bootstrap every listed branch the repository lacks, in order; a failing
      bootstrap ends the run. */
  function Bootstraps(env: Env, url: string, repo: string, branches: seq<string>, existing: seq<string>): Stage
  {
    if branches == [] then Stage([], Running)
    else
      var r := Bootstraps(env, url, repo, branches[..|branches| - 1], existing);
      var branch := branches[|branches| - 1];
      if r.status.Aborted? || branch in existing then r
      else
        var b := BranchEffects(env, repo, branch, url);
        Stage(r.effects + b.effects,
                  if b.outcome.Failed? then Aborted(BootstrapFailed(repo, branch, b.outcome.failure)) else Running)
  }

  /** The cache once an iteration has looked up its steward: a steward met
      for the first time that exists has its list fetched after the
      iteration's creation and admin grants. */
  function Fetched(setup: Setup, remote: Remote, trace: seq<Event>, cache: map<string, seq<string>>,
                   name: string, entry: RepoEntry): map<string, seq<string>>
  {
    if entry.psc.Some? && entry.psc.value !in cache && entry.psc.value in remote.teamRepos
    then cache[entry.psc.value := Listing(setup.env.org, remote, trace + Provision(setup, remote, name), entry.psc.value)]
    else cache
  }

  /** What one iteration of the pass calls for, for the document entry
      `entry` of repository `name`, given the calls made so far, the cache
      and the fetch count. A steward met for the first time has its list
      fetched after this iteration's creation and admin grants. */
  datatype Visit = Visit(events: seq<Event>, cache: map<string, seq<string>>, fetches: nat, status: Status)

  function VisitRepository(setup: Setup, remote: Remote, trace: seq<Event>, cache: map<string, seq<string>>,
                           fetches: nat, name: string, entry: RepoEntry): Visit
  {
    var provision := Provision(setup, remote, name);
    var cache' := Fetched(setup, remote, trace, cache, name, entry);
    if entry.psc.None? then Visit(provision, cache', fetches, Aborted(MissingSteward(name)))
    else
      var psc := entry.psc.value;
      if psc !in cache && psc !in remote.teamRepos then Visit(provision, cache', fetches, Aborted(StewardNotFound(psc)))
      else
        var rest := WithSteward(setup, remote, name, entry, provision, cache');
        Visit(rest.effects, cache', if psc in cache then fetches else fetches + 1, rest.status)
  }

  /** The rest of an iteration once the steward's list is cached, after the
      calls `events`: push for the steward unless its list holds the
      repository, the maintainers as collaborators, then the branches. */
  function WithSteward(setup: Setup, remote: Remote, name: string, entry: RepoEntry,
                       events: seq<Event>, cache: map<string, seq<string>>): Stage
    requires entry.psc.Some? && entry.psc.value in cache
  {
    var psc := entry.psc.value;
    var granted := events
      + (if name in cache[psc] then [] else [AddRepository(psc, FullName(setup.env.org, name), "push")])
      + Collaborators(name, Listed(entry.maintainers));
    if entry.branches.None? then Stage(granted, Aborted(MissingBranches(name)))
    else
      var run := Bootstraps(setup.env, remote.url(name), name, entry.branches.value, ExistingBranches(remote, name));
      Stage(granted + run.effects, run.status)
  }

  /** One iteration of the pass: its calls are appended to the trace. */
  function Step(setup: Setup, remote: Remote, p: Pass, name: string, entry: RepoEntry): Pass
    requires p.status.Running?
  {
    var v := VisitRepository(setup, remote, p.trace, p.cache, p.fetches, name, entry);
    Pass(p.trace + v.events, v.cache, v.fetches, v.status)
  }

  /** The whole pass over the document entries; an abort ends it. */
  function Passes(setup: Setup, remote: Remote, docs: seq<(string, RepoEntry)>): Pass
  {
    if docs == [] then Pass([], map[], 0, Running)
    else
      var p := Passes(setup, remote, docs[..|docs| - 1]);
      var (name, entry) := docs[|docs| - 1];
      if p.status.Aborted? then p else Step(setup, remote, p, name, entry)
  }

  // ---------------------------------------------------------------------
  // The pass
  // ---------------------------------------------------------------------

  /** The loop at generate.py:166-190. */
  method RepositoryPass(setup: Setup, remote: Remote, docs: seq<(string, RepoEntry)>)
    returns (trace: seq<Event>, cache: map<string, seq<string>>, fetches: nat, status: Status)
    ensures Pass(trace, cache, fetches, status) == Passes(setup, remote, docs)
  {
    trace, cache, fetches, status := [], map[], 0, Running;
    var i := 0;
    while i < |docs| && status.Running?
      invariant 0 <= i <= |docs|
      invariant Pass(trace, cache, fetches, status) == Passes(setup, remote, docs[..i])
    {
      assert docs[..i + 1][..i] == docs[..i];
      var (name, entry) := docs[i];
      var events;
      events, cache, fetches, status := ProcessRepository(setup, remote, trace, name, entry, cache, fetches);
      trace := trace + events;
      i := i + 1;
    }
    AbortIsFinal(setup, remote, docs, i);
  }

  /** The body of that loop for one repository, after the calls `trace0`. */
  method ProcessRepository(setup: Setup, remote: Remote, trace0: seq<Event>, name: string, entry: RepoEntry,
                           cache0: map<string, seq<string>>, fetches0: nat)
    returns (events: seq<Event>, cache: map<string, seq<string>>, fetches: nat, status: Status)
    ensures Visit(events, cache, fetches, status) == VisitRepository(setup, remote, trace0, cache0, fetches0, name, entry)
  {
    var existing;
    events, existing := ProvisionRepository(setup, remote, name);
    cache, fetches, status := cache0, fetches0, Running;
    if entry.psc.None? {
      status := Aborted(MissingSteward(name));
      return;
    }
    var psc := entry.psc.value;
    var found;
    cache, fetches, found := LookUpSteward(setup, remote, trace0, events, name, entry, cache0, fetches0);
    if !found {
      status := Aborted(StewardNotFound(psc));
      return;
    }
    events, status := ServeRepository(setup, remote, name, entry, events, existing, cache);
  }

  /** generate.py:182-190, once the steward's list is cached. */
  method ServeRepository(setup: Setup, remote: Remote, name: string, entry: RepoEntry, events0: seq<Event>,
                         existing: seq<string>, cache: map<string, seq<string>>)
    returns (events: seq<Event>, status: Status)
    requires entry.psc.Some? && entry.psc.value in cache && existing == ExistingBranches(remote, name)
    ensures Stage(events, status) == WithSteward(setup, remote, name, entry, events0, cache)
  {
    var psc := entry.psc.value;
    events := events0;
    if name !in cache[psc] {
      events := events + [AddRepository(psc, FullName(setup.env.org, name), "push")];
    }
    events := AddCollaborators(name, Listed(entry.maintainers), events);
    if entry.branches.None? {
      status := Aborted(MissingBranches(name));
      return;
    }
    events, status := BootstrapBranches(setup.env, remote.url(name), name, entry.branches.value, existing, events);
  }

  /** generate.py:168-175: a repository the organization lacks is created
      under the owner team and granted admin to every maintainer team; the
      branches of an existing one are read. */
  method ProvisionRepository(setup: Setup, remote: Remote, name: string)
    returns (events: seq<Event>, existing: seq<string>)
    ensures events == Provision(setup, remote, name) && existing == ExistingBranches(remote, name)
  {
    if name !in remote.repos {
      events := GrantAdmins(setup.adminTeams, FullName(setup.env.org, name), [CreateRepository(name, name, setup.owner)]);
      existing := [];
    } else {
      events := [];
      existing := remote.repos[name];
    }
  }

  /** generate.py:176-181: the steward's entry of `team_repos`, its list
      fetched on first use after the calls `trace0 + events`; `found` is
      false when the team does not exist (`NotFoundError`). */
  method LookUpSteward(setup: Setup, remote: Remote, trace0: seq<Event>, events: seq<Event>, name: string,
                       entry: RepoEntry, cache0: map<string, seq<string>>, fetches0: nat)
    returns (cache: map<string, seq<string>>, fetches: nat, found: bool)
    requires entry.psc.Some? && events == Provision(setup, remote, name)
    ensures found <==> entry.psc.value in cache0 || entry.psc.value in remote.teamRepos
    ensures cache == Fetched(setup, remote, trace0, cache0, name, entry)
    ensures found ==> entry.psc.value in cache
    ensures fetches == if entry.psc.value in cache0 || !found then fetches0 else fetches0 + 1
  {
    var psc := entry.psc.value;
    cache, fetches, found := cache0, fetches0, true;
    if psc !in cache {
      if psc !in remote.teamRepos {
        found := false;
        return;
      }
      cache := cache[psc := Listing(setup.env.org, remote, trace0 + events, psc)];
      fetches := fetches + 1;
    }
  }

  /** The loop at generate.py:170-171: admin for every maintainer team. */
  method GrantAdmins(teams: seq<string>, fullName: string, trace0: seq<Event>) returns (trace: seq<Event>)
    ensures trace == trace0 + AdminGrants(teams, fullName)
  {
    trace := trace0;
    var j := 0;
    while j < |teams|
      invariant 0 <= j <= |teams|
      invariant trace == trace0 + AdminGrants(teams[..j], fullName)
    {
      assert teams[..j + 1][..j] == teams[..j];
      trace := trace + [AddRepository(teams[j], fullName, "admin")];
      j := j + 1;
    }
    assert teams[..j] == teams;
  }

  /** The loop at generate.py:186-187: every maintainer as a collaborator. */
  method AddCollaborators(repo: string, logins: seq<string>, trace0: seq<Event>) returns (trace: seq<Event>)
    ensures trace == trace0 + Collaborators(repo, logins)
  {
    trace := trace0;
    var j := 0;
    while j < |logins|
      invariant 0 <= j <= |logins|
      invariant trace == trace0 + Collaborators(repo, logins[..j])
    {
      assert logins[..j + 1][..j] == logins[..j];
      trace := trace + [AddCollaborator(repo, logins[j])];
      j := j + 1;
    }
    assert logins[..j] == logins;
  }

  /** The branch loop at generate.py:188-190: `create_branch` for each listed
      branch the repository lacks; its exception ends the run. */
  method BootstrapBranches(env: Env, url: string, repo: string, branches: seq<string>, existing: seq<string>,
                           trace0: seq<Event>)
    returns (trace: seq<Event>, status: Status)
    ensures var run := Bootstraps(env, url, repo, branches, existing);
      trace == trace0 + run.effects && status == run.status
  {
    trace, status := trace0, Running;
    var j := 0;
    while j < |branches| && status.Running?
      invariant 0 <= j <= |branches|
      invariant trace == trace0 + Bootstraps(env, url, repo, branches[..j], existing).effects
      invariant status == Bootstraps(env, url, repo, branches[..j], existing).status
    {
      assert branches[..j + 1][..j] == branches[..j];
      var branch := branches[j];
      ghost var before := Bootstraps(env, url, repo, branches[..j], existing);
      if branch !in existing {
        var effects, outcome := CreateBranch(env, repo, branch, url);
        trace := trace + effects;
        if outcome.Failed? {
          status := Aborted(BootstrapFailed(repo, branch, outcome.failure));
        }
        assert Bootstraps(env, url, repo, branches[..j + 1], existing)
            == Stage(before.effects + effects, status);
      } else {
        assert Bootstraps(env, url, repo, branches[..j + 1], existing) == before;
      }
      j := j + 1;
    }
    BranchAbortIsFinal(env, url, repo, branches, existing, j);
  }

  // ---------------------------------------------------------------------
  // Aborts are final
  // ---------------------------------------------------------------------

  /** Once a repository aborts the pass, no later document has any effect. */
  lemma {:induction false} AbortIsFinal(setup: Setup, remote: Remote, docs: seq<(string, RepoEntry)>, i: nat)
    requires i <= |docs|
    requires i == |docs| || Passes(setup, remote, docs[..i]).status.Aborted?
    ensures Passes(setup, remote, docs) == Passes(setup, remote, docs[..i])
    decreases |docs| - i
  {
    if i < |docs| {
      var prefix := docs[..|docs| - 1];
      assert prefix[..i] == docs[..i];
      AbortIsFinal(setup, remote, prefix, i);
    } else {
      assert docs[..i] == docs;
    }
  }

  /** Once a bootstrap fails, no later branch is bootstrapped. */
  lemma {:induction false} BranchAbortIsFinal(env: Env, url: string, repo: string, branches: seq<string>,
                                              existing: seq<string>, j: nat)
    requires j <= |branches|
    requires j == |branches| || Bootstraps(env, url, repo, branches[..j], existing).status.Aborted?
    ensures Bootstraps(env, url, repo, branches, existing) == Bootstraps(env, url, repo, branches[..j], existing)
    decreases |branches| - j
  {
    if j < |branches| {
      var prefix := branches[..|branches| - 1];
      assert prefix[..j] == branches[..j];
      BranchAbortIsFinal(env, url, repo, prefix, existing, j);
    } else {
      assert branches[..j] == branches;
    }
  }

  // ---------------------------------------------------------------------
  // The steward cache
  // ---------------------------------------------------------------------

  /** The steward an entry names, if any. */
  function Named(entry: RepoEntry): set<string>
  {
    if entry.psc.Some? then {entry.psc.value} else {}
  }

  /** The steward teams the documents name. */
  function Stewards(docs: seq<(string, RepoEntry)>): set<string>
  {
    if docs == [] then {} else Stewards(docs[..|docs| - 1]) + Named(docs[|docs| - 1].1)
  }

  /** `list` is `team`'s repository list as the remote reported it at some
      point of `trace`: after the first `m` calls of the pass. */
  ghost predicate FetchedDuring(org: string, remote: Remote, trace: seq<Event>, team: string, list: seq<string>)
  {
    team in remote.teamRepos && exists m :: 0 <= m <= |trace| && list == Listing(org, remote, trace[..m], team)
  }

  /** Each cached list is the one the remote reported when it was fetched,
      and one fetch was made per cached team. */
  ghost predicate Mirrors(org: string, remote: Remote, p: Pass)
  {
    && (forall t :: t in p.cache ==> FetchedDuring(org, remote, p.trace, t, p.cache[t]))
    && p.fetches == |p.cache.Keys|
  }

  /** `cache'` keeps every entry of `cache` unchanged. */
  ghost predicate Extends(cache: map<string, seq<string>>, cache': map<string, seq<string>>)
  {
    forall t :: t in cache ==> t in cache' && cache'[t] == cache[t]
  }

  /** An iteration's calls begin with the creation and admin grants. */
  lemma VisitStartsWithProvision(setup: Setup, remote: Remote, trace: seq<Event>, cache: map<string, seq<string>>,
                                 fetches: nat, name: string, entry: RepoEntry)
    ensures var provision := Provision(setup, remote, name);
            var events := VisitRepository(setup, remote, trace, cache, fetches, name, entry).events;
      |provision| <= |events| && events[..|provision|] == provision
  {
    var provision := Provision(setup, remote, name);
    var events := VisitRepository(setup, remote, trace, cache, fetches, name, entry).events;
    if |provision| <= |events| {
      assert events[..|provision|] == provision;
    }
  }

  /** Looking up the steward keeps every cached list, caches at most that
      steward, and reads its list after the creation and admin grants. */
  lemma FetchedCaches(setup: Setup, remote: Remote, trace: seq<Event>, cache: map<string, seq<string>>,
                      name: string, entry: RepoEntry)
    ensures var cache' := Fetched(setup, remote, trace, cache, name, entry);
      && Extends(cache, cache')
      && cache'.Keys <= cache.Keys + Named(entry)
      && (entry.psc.Some? && entry.psc.value !in cache && entry.psc.value in remote.teamRepos ==>
            |cache'.Keys| == |cache.Keys| + 1)
      && forall t :: t in cache' && t !in cache ==>
           t in remote.teamRepos && cache'[t] == Listing(setup.env.org, remote, trace + Provision(setup, remote, name), t)
  {
    var cache' := Fetched(setup, remote, trace, cache, name, entry);
    if entry.psc.Some? && entry.psc.value !in cache && entry.psc.value in remote.teamRepos {
      assert cache'.Keys == cache.Keys + {entry.psc.value};
    }
  }

  /** A visit keeps every cached list, caches at most its own steward, and
      does so with one fetch, reading the list after its creation and admin
      grants. */
  lemma VisitCaches(setup: Setup, remote: Remote, trace: seq<Event>, cache: map<string, seq<string>>,
                    fetches: nat, name: string, entry: RepoEntry)
    ensures var v := VisitRepository(setup, remote, trace, cache, fetches, name, entry);
      && Extends(cache, v.cache)
      && v.cache.Keys <= cache.Keys + Named(entry)
      && (v.status.Running? ==> v.cache.Keys == cache.Keys + Named(entry))
      && (fetches == |cache.Keys| ==> v.fetches == |v.cache.Keys|)
      && forall t :: t in v.cache && t !in cache ==>
           t in remote.teamRepos && v.cache[t] == Listing(setup.env.org, remote, trace + Provision(setup, remote, name), t)
  {
    var v := VisitRepository(setup, remote, trace, cache, fetches, name, entry);
    assert v.cache == Fetched(setup, remote, trace, cache, name, entry);
    FetchedCaches(setup, remote, trace, cache, name, entry);
    if entry.psc.None? || entry.psc.value !in remote.teamRepos {
      assert v.fetches == fetches;
    } else if entry.psc.value in cache {
      assert v.fetches == fetches;
    } else {
      assert v.fetches == fetches + 1;
    }
  }

  lemma StepCaches(setup: Setup, remote: Remote, p: Pass, name: string, entry: RepoEntry)
    requires p.status.Running?
    ensures var q := Step(setup, remote, p, name, entry);
      && Extends(p.cache, q.cache)
      && q.cache.Keys <= p.cache.Keys + Named(entry)
      && (q.status.Running? ==> q.cache.Keys == p.cache.Keys + Named(entry))
  {
    VisitCaches(setup, remote, p.trace, p.cache, p.fetches, name, entry);
  }

  /** A pass state that extends a mirroring one, with its calls, its cache
      and a list for each new steward read after a prefix of its calls,
      mirrors the remote as well. */
  lemma MirrorsGrow(org: string, remote: Remote, p: Pass, q: Pass, k: nat)
    requires Mirrors(org, remote, p)
    requires |p.trace| <= k <= |q.trace| && q.trace[..|p.trace|] == p.trace
    requires Extends(p.cache, q.cache) && q.fetches == |q.cache.Keys|
    requires forall t :: t in q.cache && t !in p.cache ==>
               t in remote.teamRepos && q.cache[t] == Listing(org, remote, q.trace[..k], t)
    ensures Mirrors(org, remote, q)
  {
    forall t | t in q.cache
      ensures FetchedDuring(org, remote, q.trace, t, q.cache[t])
    {
      if t in p.cache {
        var m :| 0 <= m <= |p.trace| && p.cache[t] == Listing(org, remote, p.trace[..m], t);
        assert q.trace[..m] == p.trace[..m];
      }
    }
  }

  /** An iteration keeps each cached list the one the remote reported when
      it was fetched. */
  lemma StepMirrors(setup: Setup, remote: Remote, p: Pass, name: string, entry: RepoEntry)
    requires p.status.Running? && Mirrors(setup.env.org, remote, p)
    ensures Mirrors(setup.env.org, remote, Step(setup, remote, p, name, entry))
  {
    var q := Step(setup, remote, p, name, entry);
    var v := VisitRepository(setup, remote, p.trace, p.cache, p.fetches, name, entry);
    var provision := Provision(setup, remote, name);
    assert q == Pass(p.trace + v.events, v.cache, v.fetches, v.status);
    VisitCaches(setup, remote, p.trace, p.cache, p.fetches, name, entry);
    VisitStartsWithProvision(setup, remote, p.trace, p.cache, p.fetches, name, entry);
    assert q.trace[..|p.trace + provision|] == p.trace + provision;
    assert q.trace[..|p.trace|] == p.trace;
    MirrorsGrow(setup.env.org, remote, p, q, |p.trace + provision|);
  }

  /** Each cached list is the steward's list as the remote reported it at
      some point of the pass, cached only for stewards the documents name,
      with one fetch per cached team; a pass that completes has cached every
      steward it was given. */
  lemma {:induction false} CacheMirrorsRemote(setup: Setup, remote: Remote, docs: seq<(string, RepoEntry)>)
    ensures var p := Passes(setup, remote, docs);
      && Mirrors(setup.env.org, remote, p)
      && p.cache.Keys <= Stewards(docs)
      && (p.status.Running? ==> p.cache.Keys == Stewards(docs))
  {
    if docs != [] {
      var prefix := docs[..|docs| - 1];
      CacheMirrorsRemote(setup, remote, prefix);
      var p := Passes(setup, remote, prefix);
      if p.status.Running? {
        StepCaches(setup, remote, p, docs[|docs| - 1].0, docs[|docs| - 1].1);
        StepMirrors(setup, remote, p, docs[|docs| - 1].0, docs[|docs| - 1].1);
      }
    }
  }

  /** Once cached, a steward's list never changes during the pass. */
  lemma {:induction false} CacheIsKept(setup: Setup, remote: Remote, docs: seq<(string, RepoEntry)>, i: nat)
    requires i <= |docs|
    ensures Extends(Passes(setup, remote, docs[..i]).cache, Passes(setup, remote, docs).cache)
    decreases |docs| - i
  {
    if i == |docs| {
      assert docs[..i] == docs;
    } else {
      var prefix := docs[..|docs| - 1];
      assert prefix[..i] == docs[..i];
      CacheIsKept(setup, remote, prefix, i);
      var p := Passes(setup, remote, prefix);
      if p.status.Running? {
        StepCaches(setup, remote, p, docs[|docs| - 1].0, docs[|docs| - 1].1);
      }
    }
  }

  lemma {:induction false} GainedConcat(org: string, a: seq<Event>, b: seq<Event>, team: string)
    ensures Gained(org, a + b, team) == Gained(org, a, team) + Gained(org, b, team)
  {
    if b == [] {
      assert a + b == a;
    } else {
      var b0 := b[..|b| - 1];
      assert (a + b)[..|a + b| - 1] == a + b0;
      assert (a + b)[|a + b| - 1] == b[|b| - 1];
      GainedConcat(org, a, b0, team);
      assert Gained(org, a + b, team) == Gained(org, a + b0, team) + GainedBy(org, b[|b| - 1], team);
    }
  }

  /** A maintainer team gains every repository it is granted admin on. */
  lemma {:induction false} GainedByAdminGrants(org: string, teams: seq<string>, name: string, team: string)
    requires team in teams
    ensures name in Gained(org, AdminGrants(teams, FullName(org, name)), team)
  {
    var prefix := teams[..|teams| - 1];
    var grants := AdminGrants(teams, FullName(org, name));
    assert grants[..|grants| - 1] == AdminGrants(prefix, FullName(org, name));
    if team == teams[|teams| - 1] {
      var f := FullName(org, name);
      assert f[..|org| + 1] == org + "/" && f[|org| + 1..] == name;
      assert GainedBy(org, grants[|grants| - 1], team) == [name];
    } else {
      assert team in prefix;
      GainedByAdminGrants(org, prefix, name, team);
    }
  }

  /** The list fetched after a new repository's creation and admin grants
      holds it for the owner team and every maintainer team. */
  lemma NewRepositoryListed(setup: Setup, remote: Remote, trace: seq<Event>, name: string, team: string)
    requires name !in remote.repos && team in remote.teamRepos
    requires team == setup.owner || team in setup.adminTeams
    ensures name in Listing(setup.env.org, remote, trace + Provision(setup, remote, name), team)
  {
    var org := setup.env.org;
    var create := CreateRepository(name, name, setup.owner);
    var admins := AdminGrants(setup.adminTeams, FullName(org, name));
    assert Provision(setup, remote, name) == [create] + admins;
    GainedConcat(org, trace, [create] + admins, team);
    GainedConcat(org, [create], admins, team);
    if team == setup.owner {
      assert [create][..0] == [];
      assert Gained(org, [create], team) == [name];
    } else {
      GainedByAdminGrants(org, setup.adminTeams, name, team);
    }
  }

  /** A visit that reaches its steward's list grants the steward push
      exactly when that list, as cached, lacks the repository. */
  lemma VisitPushGrant(setup: Setup, remote: Remote, trace: seq<Event>, cache: map<string, seq<string>>,
                       fetches: nat, name: string, entry: RepoEntry)
    requires entry.psc.Some? && (entry.psc.value in cache || entry.psc.value in remote.teamRepos)
    ensures var v := VisitRepository(setup, remote, trace, cache, fetches, name, entry);
      && entry.psc.value in v.cache
      && (AddRepository(entry.psc.value, FullName(setup.env.org, name), "push") in v.events <==>
            name !in v.cache[entry.psc.value])
  {
    var psc := entry.psc.value;
    var push := AddRepository(psc, FullName(setup.env.org, name), "push");
    var v := VisitRepository(setup, remote, trace, cache, fetches, name, entry);
    var provision := Provision(setup, remote, name);
    var grant := if name in v.cache[psc] then [] else [push];
    var collaborators := Collaborators(name, Listed(entry.maintainers));
    AdminGrantsAre(setup.adminTeams, FullName(setup.env.org, name));
    assert push !in provision;
    CollaboratorsAre(name, Listed(entry.maintainers));
    assert push !in collaborators;
    if entry.branches.None? {
      assert v.events == provision + grant + collaborators;
    } else {
      var run := Bootstraps(setup.env, remote.url(name), name, entry.branches.value, ExistingBranches(remote, name));
      BootstrapsAre(setup.env, remote.url(name), name, entry.branches.value, ExistingBranches(remote, name));
      assert push !in run.effects;
      assert v.events == provision + grant + collaborators + run.effects;
    }
  }

  /** A steward met for the first time on a repository this iteration
      creates, when it is the owner team or a maintainer team, has its list
      fetched after the creation and admin grants: the list holds the new
      repository and no push grant is made. */
  lemma FreshStewardSeesNewRepository(setup: Setup, remote: Remote, trace: seq<Event>, cache: map<string, seq<string>>,
                                      fetches: nat, name: string, entry: RepoEntry)
    requires name !in remote.repos && entry.psc.Some?
    requires entry.psc.value !in cache && entry.psc.value in remote.teamRepos
    requires entry.psc.value == setup.owner || entry.psc.value in setup.adminTeams
    ensures var v := VisitRepository(setup, remote, trace, cache, fetches, name, entry);
      && entry.psc.value in v.cache && name in v.cache[entry.psc.value]
      && AddRepository(entry.psc.value, FullName(setup.env.org, name), "push") !in v.events
  {
    NewRepositoryListed(setup, remote, trace, name, entry.psc.value);
    VisitCaches(setup, remote, trace, cache, fetches, name, entry);
    VisitPushGrant(setup, remote, trace, cache, fetches, name, entry);
  }

  lemma {:induction false} StewardsOfOneTeam(docs: seq<(string, RepoEntry)>, team: string)
    requires forall k :: 0 <= k < |docs| ==> docs[k].1.psc == Some(team)
    ensures Stewards(docs) == if docs == [] then {} else {team}
  {
    if docs != [] {
      StewardsOfOneTeam(docs[..|docs| - 1], team);
    }
  }

  /** However many repositories name the same steward, its repository list is
      fetched at most once, and exactly once by a pass that completes. */
  lemma SharedStewardFetchedOnce(setup: Setup, remote: Remote, docs: seq<(string, RepoEntry)>, team: string)
    requires forall k :: 0 <= k < |docs| ==> docs[k].1.psc == Some(team)
    ensures Passes(setup, remote, docs).fetches <= 1
    ensures docs != [] && Passes(setup, remote, docs).status.Running? ==> Passes(setup, remote, docs).fetches == 1
  {
    CacheMirrorsRemote(setup, remote, docs);
    StewardsOfOneTeam(docs, team);
    var keys := Passes(setup, remote, docs).cache.Keys;
    if team in keys {
      assert keys == {team};
    } else {
      assert keys == {};
    }
  }

  // ---------------------------------------------------------------------
  // Every call has a reason
  // ---------------------------------------------------------------------

  /** Event `e` is one the document entry `entry` of repository `name` calls
      for, given the steward lists of the pass's cache: its creation and
      admin grants when the organization lacks it, its push grant when the
      steward's list as fetched lacks it (and so did the list the pass
      started with), its collaborators, and the local effects of
      bootstrapping a listed branch it lacks. The pass makes no team or
      membership call. */
  ghost predicate ExplainedBy(setup: Setup, remote: Remote, cache: map<string, seq<string>>,
                              name: string, entry: RepoEntry, e: Event)
  {
    match e
    case CreateRepository(n, d, t) => n == name && d == name && t == setup.owner && name !in remote.repos
    case AddRepository(t, f, permission) =>
      && f == FullName(setup.env.org, name)
      && ((permission == "admin" && t in setup.adminTeams && name !in remote.repos)
          || (&& permission == "push" && entry.psc == Some(t)
              && t in remote.teamRepos && name !in remote.teamRepos[t]
              && t in cache && name !in cache[t]))
    case AddCollaborator(n, login) => n == name && login in Listed(entry.maintainers)
    case Run(c) =>
      && BootstrapEffect(setup, remote, name, entry, e)
      && (c.Expand? ==>
            && c == Expand(setup.env.template, name, name, c.version)
            && entry.branches.Some? && c.version in entry.branches.value
            && c.version !in ExistingBranches(remote, name))
    case LogError(message) => message == FailureMessage && BootstrapEffect(setup, remote, name, entry, e)
    case AcquireWorkspace => BootstrapEffect(setup, remote, name, entry, e)
    case RemoveWorkspace => BootstrapEffect(setup, remote, name, entry, e)
    case CreateTeam(_, _) => false
    case RevokeMembership(_, _) => false
    case UpsertMembership(_, _, _) => false
  }

  /** `e` is an effect of bootstrapping one of the entry's listed branches
      that the repository lacks. */
  ghost predicate BootstrapEffect(setup: Setup, remote: Remote, name: string, entry: RepoEntry, e: Event)
  {
    && entry.branches.Some?
    && exists v :: v in entry.branches.value && v !in ExistingBranches(remote, name)
                   && e in BranchEffects(setup.env, name, v, remote.url(name)).effects
  }

  lemma ExplainedExtends(setup: Setup, remote: Remote, cache: map<string, seq<string>>, cache': map<string, seq<string>>,
                         name: string, entry: RepoEntry, e: Event)
    requires Extends(cache, cache') && ExplainedBy(setup, remote, cache, name, entry, e)
    ensures ExplainedBy(setup, remote, cache', name, entry, e)
  {
  }

  lemma {:induction false} AdminGrantsAre(teams: seq<string>, fullName: string)
    ensures forall e :: e in AdminGrants(teams, fullName) ==> e.AddRepository? && e == AddRepository(e.team, fullName, "admin") && e.team in teams
  {
    if teams != [] {
      AdminGrantsAre(teams[..|teams| - 1], fullName);
    }
  }

  lemma {:induction false} CollaboratorsAre(repo: string, logins: seq<string>)
    ensures forall e :: e in Collaborators(repo, logins) ==> e.AddCollaborator? && e.repo == repo && e.login in logins
  {
    if logins != [] {
      CollaboratorsAre(repo, logins[..|logins| - 1]);
    }
  }

  /** A branch run only bootstraps listed branches the repository lacks. */
  lemma {:induction false} BootstrapsAre(env: Env, url: string, repo: string, branches: seq<string>, existing: seq<string>)
    ensures forall e :: e in Bootstraps(env, url, repo, branches, existing).effects ==>
              || e == AcquireWorkspace
              || e == RemoveWorkspace
              || e == LogError(FailureMessage)
              || (e.Run? && (e.command.Expand? ==>
                    && e.command == Expand(env.template, repo, repo, e.command.version)
                    && e.command.version in branches && e.command.version !in existing))
  {
    if branches != [] {
      var prefix := branches[..|branches| - 1];
      var branch := branches[|branches| - 1];
      BootstrapsAre(env, url, repo, prefix, existing);
      BootstrapEffectsAreLocal(env, repo, branch, url);
      ExpansionRunsFirst(env, repo, branch, url);
    }
  }

  /** Every effect of a branch run comes from bootstrapping one listed branch
      the repository lacks. */
  lemma {:induction false} BootstrapsFromBranches(env: Env, url: string, repo: string, branches: seq<string>,
                                                  existing: seq<string>)
    ensures forall e :: e in Bootstraps(env, url, repo, branches, existing).effects ==>
              exists v :: v in branches && v !in existing && e in BranchEffects(env, repo, v, url).effects
  {
    if branches != [] {
      var prefix := branches[..|branches| - 1];
      var branch := branches[|branches| - 1];
      BootstrapsFromBranches(env, url, repo, prefix, existing);
      var r := Bootstraps(env, url, repo, prefix, existing);
      forall e | e in Bootstraps(env, url, repo, branches, existing).effects
        ensures exists v :: v in branches && v !in existing && e in BranchEffects(env, repo, v, url).effects
      {
        if e in r.effects {
          var v :| v in prefix && v !in existing && e in BranchEffects(env, repo, v, url).effects;
          assert v in branches;
        } else {
          assert branch in branches;
        }
      }
    }
  }

  ghost predicate AllExplained(setup: Setup, remote: Remote, cache: map<string, seq<string>>,
                               name: string, entry: RepoEntry, events: seq<Event>)
  {
    forall e :: e in events ==> ExplainedBy(setup, remote, cache, name, entry, e)
  }

  lemma AllExplainedConcat(setup: Setup, remote: Remote, cache: map<string, seq<string>>,
                           name: string, entry: RepoEntry, a: seq<Event>, b: seq<Event>)
    requires AllExplained(setup, remote, cache, name, entry, a) && AllExplained(setup, remote, cache, name, entry, b)
    ensures AllExplained(setup, remote, cache, name, entry, a + b)
  {
  }

  lemma ProvisionExplained(setup: Setup, remote: Remote, cache: map<string, seq<string>>, name: string, entry: RepoEntry)
    ensures AllExplained(setup, remote, cache, name, entry, Provision(setup, remote, name))
  {
    AdminGrantsAre(setup.adminTeams, FullName(setup.env.org, name));
  }

  /** Every cached list starts with the list the pass started with. */
  ghost predicate HoldsSnapshot(remote: Remote, cache: map<string, seq<string>>)
  {
    forall t :: t in cache ==> t in remote.teamRepos && remote.teamRepos[t] <= cache[t]
  }

  lemma MirrorsHoldsSnapshot(org: string, remote: Remote, p: Pass)
    requires Mirrors(org, remote, p)
    ensures HoldsSnapshot(remote, p.cache)
  {
    forall t | t in p.cache
      ensures t in remote.teamRepos && remote.teamRepos[t] <= p.cache[t]
    {
      var m :| 0 <= m <= |p.trace| && p.cache[t] == Listing(org, remote, p.trace[..m], t);
    }
  }

  lemma GrantsExplained(setup: Setup, remote: Remote, name: string, entry: RepoEntry, cache: map<string, seq<string>>)
    requires entry.psc.Some? && entry.psc.value in cache && entry.psc.value in remote.teamRepos
    requires remote.teamRepos[entry.psc.value] <= cache[entry.psc.value]
    ensures var psc := entry.psc.value;
      AllExplained(setup, remote, cache, name, entry,
        (if name in cache[psc] then [] else [AddRepository(psc, FullName(setup.env.org, name), "push")])
        + Collaborators(name, Listed(entry.maintainers)))
  {
    var psc := entry.psc.value;
    if name in remote.teamRepos[psc] {
      var i :| 0 <= i < |remote.teamRepos[psc]| && remote.teamRepos[psc][i] == name;
      assert cache[psc][i] == name;
    }
    CollaboratorsAre(name, Listed(entry.maintainers));
  }

  lemma RunExplained(setup: Setup, remote: Remote, cache: map<string, seq<string>>, name: string, entry: RepoEntry)
    requires entry.branches.Some?
    ensures AllExplained(setup, remote, cache, name, entry,
              Bootstraps(setup.env, remote.url(name), name, entry.branches.value, ExistingBranches(remote, name)).effects)
  {
    BootstrapsAre(setup.env, remote.url(name), name, entry.branches.value, ExistingBranches(remote, name));
    BootstrapsFromBranches(setup.env, remote.url(name), name, entry.branches.value, ExistingBranches(remote, name));
  }

  lemma VisitExplained(setup: Setup, remote: Remote, trace: seq<Event>, cache: map<string, seq<string>>, fetches: nat,
                       name: string, entry: RepoEntry)
    requires HoldsSnapshot(remote, cache)
    ensures var v := VisitRepository(setup, remote, trace, cache, fetches, name, entry);
      AllExplained(setup, remote, v.cache, name, entry, v.events)
  {
    var v := VisitRepository(setup, remote, trace, cache, fetches, name, entry);
    var provision := Provision(setup, remote, name);
    ProvisionExplained(setup, remote, v.cache, name, entry);
    if entry.psc.Some? && (entry.psc.value in cache || entry.psc.value in remote.teamRepos) {
      var psc := entry.psc.value;
      var cache' := v.cache;
      assert psc in cache' && psc in remote.teamRepos && remote.teamRepos[psc] <= cache'[psc];
      var granted := (if name in cache'[psc] then [] else [AddRepository(psc, FullName(setup.env.org, name), "push")])
        + Collaborators(name, Listed(entry.maintainers));
      GrantsExplained(setup, remote, name, entry, cache');
      AllExplainedConcat(setup, remote, cache', name, entry, provision, granted);
      if entry.branches.Some? {
        var run := Bootstraps(setup.env, remote.url(name), name, entry.branches.value, ExistingBranches(remote, name));
        RunExplained(setup, remote, cache', name, entry);
        AllExplainedConcat(setup, remote, cache', name, entry, provision + granted, run.effects);
      }
    }
  }

  /** Every event of `trace` is called for by one of the document entries. */
  ghost predicate ExplainedByDocs(setup: Setup, remote: Remote, docs: seq<(string, RepoEntry)>, trace: seq<Event>,
                                  cache: map<string, seq<string>>)
  {
    forall e :: e in trace ==> exists k :: 0 <= k < |docs| && ExplainedBy(setup, remote, cache, docs[k].0, docs[k].1, e)
  }

  /** Every call and effect of a pass is called for by one of the document
      entries, against the steward lists the pass fetched. */
  lemma {:induction false} EveryCallExplained(setup: Setup, remote: Remote, docs: seq<(string, RepoEntry)>)
    ensures var q := Passes(setup, remote, docs);
      ExplainedByDocs(setup, remote, docs, q.trace, q.cache)
  {
    if docs != [] {
      var n := |docs| - 1;
      var prefix := docs[..n];
      EveryCallExplained(setup, remote, prefix);
      var p := Passes(setup, remote, prefix);
      var q := Passes(setup, remote, docs);
      if p.status.Running? {
        CacheMirrorsRemote(setup, remote, prefix);
        MirrorsHoldsSnapshot(setup.env.org, remote, p);
        StepCaches(setup, remote, p, docs[n].0, docs[n].1);
        VisitExplained(setup, remote, p.trace, p.cache, p.fetches, docs[n].0, docs[n].1);
        forall e | e in q.trace
          ensures exists k :: 0 <= k < |docs| && ExplainedBy(setup, remote, q.cache, docs[k].0, docs[k].1, e)
        {
          var i :| 0 <= i < |q.trace| && q.trace[i] == e;
          if i < |p.trace| {
            assert e in p.trace;
            var k :| 0 <= k < n && ExplainedBy(setup, remote, p.cache, prefix[k].0, prefix[k].1, e);
            assert prefix[k] == docs[k];
            ExplainedExtends(setup, remote, p.cache, q.cache, docs[k].0, docs[k].1, e);
          } else {
            assert e in VisitRepository(setup, remote, p.trace, p.cache, p.fetches, docs[n].0, docs[n].1).events;
            assert ExplainedBy(setup, remote, q.cache, docs[n].0, docs[n].1, e);
          }
        }
      } else {
        forall e | e in p.trace
          ensures exists k :: 0 <= k < |docs| && ExplainedBy(setup, remote, p.cache, docs[k].0, docs[k].1, e)
        {
          var k :| 0 <= k < n && ExplainedBy(setup, remote, p.cache, prefix[k].0, prefix[k].1, e);
          assert prefix[k] == docs[k];
        }
      }
    }
  }

  // ---------------------------------------------------------------------
  // Every document is applied
  // ---------------------------------------------------------------------

  /** The trace carries everything the document entry `entry` of repository
      `name` calls for, given the steward lists of the pass's cache: the
      entry is complete, its steward exists and its list was fetched, a
      missing repository is created under the owner team with admin for
      every maintainer team, a repository missing from its steward's list
      as fetched is granted push, every maintainer is added as a
      collaborator, and every listed branch the repository lacks is
      bootstrapped successfully. */
  ghost predicate Applied(setup: Setup, remote: Remote, trace: seq<Event>, cache: map<string, seq<string>>,
                          name: string, entry: RepoEntry)
  {
    && entry.psc.Some? && entry.branches.Some?
    && entry.psc.value in remote.teamRepos
    && entry.psc.value in cache
    && (name !in remote.repos ==>
          && CreateRepository(name, name, setup.owner) in trace
          && forall t :: t in setup.adminTeams ==> AddRepository(t, FullName(setup.env.org, name), "admin") in trace)
    && (name !in cache[entry.psc.value] ==>
          AddRepository(entry.psc.value, FullName(setup.env.org, name), "push") in trace)
    && (forall login :: login in Listed(entry.maintainers) ==> AddCollaborator(name, login) in trace)
    && (forall v :: v in entry.branches.value && v !in ExistingBranches(remote, name) ==>
          && BranchEffects(setup.env, name, v, remote.url(name)).outcome == Done
          && Run(Expand(setup.env.template, name, name, v)) in trace)
  }

  lemma {:induction false} AdminGrantsContain(teams: seq<string>, fullName: string)
    ensures forall t :: t in teams ==> AddRepository(t, fullName, "admin") in AdminGrants(teams, fullName)
  {
    if teams != [] {
      var prefix := teams[..|teams| - 1];
      AdminGrantsContain(prefix, fullName);
      assert forall t :: t in teams ==> t in prefix || t == teams[|teams| - 1];
    }
  }

  lemma {:induction false} CollaboratorsContain(repo: string, logins: seq<string>)
    ensures forall login :: login in logins ==> AddCollaborator(repo, login) in Collaborators(repo, logins)
  {
    if logins != [] {
      var prefix := logins[..|logins| - 1];
      CollaboratorsContain(repo, prefix);
      assert forall login :: login in logins ==> login in prefix || login == logins[|logins| - 1];
    }
  }

  /** A branch run that does not abort bootstrapped every listed branch the
      repository lacked, each to completion. */
  lemma {:induction false} BootstrapsComplete(env: Env, url: string, repo: string, branches: seq<string>, existing: seq<string>)
    requires Bootstraps(env, url, repo, branches, existing).status.Running?
    ensures forall v :: v in branches && v !in existing ==>
              && BranchEffects(env, repo, v, url).outcome == Done
              && Run(Expand(env.template, repo, repo, v)) in Bootstraps(env, url, repo, branches, existing).effects
  {
    if branches != [] {
      var prefix := branches[..|branches| - 1];
      var branch := branches[|branches| - 1];
      BootstrapsComplete(env, url, repo, prefix, existing);
      assert forall v :: v in branches ==> v in prefix || v == branch;
      if branch !in existing {
        ExpansionRunsFirst(env, repo, branch, url);
      }
    }
  }

  lemma VisitApplied(setup: Setup, remote: Remote, trace: seq<Event>, cache: map<string, seq<string>>, fetches: nat,
                     name: string, entry: RepoEntry)
    requires forall t :: t in cache ==> t in remote.teamRepos
    requires VisitRepository(setup, remote, trace, cache, fetches, name, entry).status.Running?
    ensures var v := VisitRepository(setup, remote, trace, cache, fetches, name, entry);
      Applied(setup, remote, v.events, v.cache, name, entry)
  {
    AdminGrantsContain(setup.adminTeams, FullName(setup.env.org, name));
    CollaboratorsContain(name, Listed(entry.maintainers));
    BootstrapsComplete(setup.env, remote.url(name), name, entry.branches.value, ExistingBranches(remote, name));
  }

  lemma AppliedGrows(setup: Setup, remote: Remote, trace: seq<Event>, trace': seq<Event>,
                     cache: map<string, seq<string>>, cache': map<string, seq<string>>, name: string, entry: RepoEntry)
    requires forall e :: e in trace ==> e in trace'
    requires Extends(cache, cache')
    requires Applied(setup, remote, trace, cache, name, entry)
    ensures Applied(setup, remote, trace', cache', name, entry)
  {
  }

  /** A pass that completes after the last document has applied that
      document, and the pass over the earlier documents completed too. */
  lemma {:induction false} LastApplied(setup: Setup, remote: Remote, docs: seq<(string, RepoEntry)>)
    requires docs != [] && Passes(setup, remote, docs).status.Running?
    ensures var p := Passes(setup, remote, docs[..|docs| - 1]);
            var q := Passes(setup, remote, docs);
      && p.status.Running?
      && (forall e :: e in p.trace ==> e in q.trace)
      && Extends(p.cache, q.cache)
      && Applied(setup, remote, q.trace, q.cache, docs[|docs| - 1].0, docs[|docs| - 1].1)
  {
    var n := |docs| - 1;
    var (name, entry) := docs[n];
    var p := Passes(setup, remote, docs[..n]);
    CacheMirrorsRemote(setup, remote, docs[..n]);
    MirrorsHoldsSnapshot(setup.env.org, remote, p);
    StepCaches(setup, remote, p, name, entry);
    var v := VisitRepository(setup, remote, p.trace, p.cache, p.fetches, name, entry);
    VisitApplied(setup, remote, p.trace, p.cache, p.fetches, name, entry);
    AppliedGrows(setup, remote, v.events, p.trace + v.events, v.cache, v.cache, name, entry);
  }

  ghost predicate AllApplied(setup: Setup, remote: Remote, trace: seq<Event>, cache: map<string, seq<string>>,
                             docs: seq<(string, RepoEntry)>)
  {
    forall k :: 0 <= k < |docs| ==> Applied(setup, remote, trace, cache, docs[k].0, docs[k].1)
  }

  /** A pass that completes has applied every document entry. */
  lemma {:induction false} EveryDocApplied(setup: Setup, remote: Remote, docs: seq<(string, RepoEntry)>)
    requires Passes(setup, remote, docs).status.Running?
    ensures var q := Passes(setup, remote, docs);
      AllApplied(setup, remote, q.trace, q.cache, docs)
  {
    if docs != [] {
      var n := |docs| - 1;
      var prefix := docs[..n];
      LastApplied(setup, remote, docs);
      var p := Passes(setup, remote, prefix);
      var q := Passes(setup, remote, docs);
      EveryDocApplied(setup, remote, prefix);
      forall k | 0 <= k < |docs|
        ensures Applied(setup, remote, q.trace, q.cache, docs[k].0, docs[k].1)
      {
        if k < n {
          assert prefix[k] == docs[k];
          AppliedGrows(setup, remote, p.trace, q.trace, p.cache, q.cache, docs[k].0, docs[k].1);
        } else {
          assert k == n;
        }
      }
    }
  }

  // ---------------------------------------------------------------------
  // Exactly the calls the documents call for
  // ---------------------------------------------------------------------

  /** The repository names of the document are distinct, as the keys of a
      mapping are. */
  ghost predicate DistinctNames(docs: seq<(string, RepoEntry)>)
  {
    forall i, j :: 0 <= i < j < |docs| ==> docs[i].0 != docs[j].0
  }

  lemma FullNameInjective(org: string, a: string, b: string)
    requires FullName(org, a) == FullName(org, b)
    ensures a == b
  {
    assert a == FullName(org, a)[|org| + 1..];
    assert b == FullName(org, b)[|org| + 1..];
  }

  /** The document entry that explains a call naming repository `name`. */
  lemma ExplainerOf(setup: Setup, remote: Remote, docs: seq<(string, RepoEntry)>, trace: seq<Event>,
                    cache: map<string, seq<string>>, k: int, e: Event)
    requires DistinctNames(docs) && 0 <= k < |docs|
    requires ExplainedByDocs(setup, remote, docs, trace, cache) && e in trace
    requires || e == CreateRepository(docs[k].0, docs[k].0, setup.owner)
             || (e.AddRepository? && e.fullName == FullName(setup.env.org, docs[k].0))
             || (e.Run? && e.command.Expand? && e.command.repoName == docs[k].0)
    ensures ExplainedBy(setup, remote, cache, docs[k].0, docs[k].1, e)
  {
    var i :| 0 <= i < |docs| && ExplainedBy(setup, remote, cache, docs[i].0, docs[i].1, e);
    if e.AddRepository? {
      FullNameInjective(setup.env.org, docs[i].0, docs[k].0);
    }
    assert docs[i].0 == docs[k].0;
  }

  /** For a pass that completes over documents with distinct names, each
      repository is created exactly when the organization lacked it, granted
      push exactly when its steward's list as fetched lacked it, and
      bootstrapped on exactly the listed branches it lacked. */
  lemma {:induction false} CallsExactly(setup: Setup, remote: Remote, docs: seq<(string, RepoEntry)>, k: int)
    requires DistinctNames(docs) && Passes(setup, remote, docs).status.Running? && 0 <= k < |docs|
    ensures var (name, entry) := docs[k];
            var q := Passes(setup, remote, docs);
      && entry.psc.Some? && entry.branches.Some?
      && (CreateRepository(name, name, setup.owner) in q.trace <==> name !in remote.repos)
      && entry.psc.value in remote.teamRepos && entry.psc.value in q.cache
      && (AddRepository(entry.psc.value, FullName(setup.env.org, name), "push") in q.trace <==>
            name !in q.cache[entry.psc.value])
      && forall v :: Run(Expand(setup.env.template, name, name, v)) in q.trace <==>
                       v in entry.branches.value && v !in ExistingBranches(remote, name)
  {
    var (name, entry) := docs[k];
    var q := Passes(setup, remote, docs);
    EveryDocApplied(setup, remote, docs);
    EveryCallExplained(setup, remote, docs);
    assert Applied(setup, remote, q.trace, q.cache, name, entry);
    var create := CreateRepository(name, name, setup.owner);
    if create in q.trace {
      ExplainerOf(setup, remote, docs, q.trace, q.cache, k, create);
    }
    var push := AddRepository(entry.psc.value, FullName(setup.env.org, name), "push");
    if push in q.trace {
      ExplainerOf(setup, remote, docs, q.trace, q.cache, k, push);
    }
    forall v | Run(Expand(setup.env.template, name, name, v)) in q.trace
      ensures v in entry.branches.value && v !in ExistingBranches(remote, name)
    {
      ExplainerOf(setup, remote, docs, q.trace, q.cache, k, Run(Expand(setup.env.template, name, name, v)));
    }
  }

  // ---------------------------------------------------------------------
  // A second run
  // ---------------------------------------------------------------------

  /** What one call does to the organization's repositories: a creation adds
      a repository without branches, and a bootstrap adds its branch (a
      bootstrap in a pass that completes pushes its branch). */
  function ReposStep(repos: map<string, seq<string>>, e: Event): map<string, seq<string>>
  {
    match e
    case CreateRepository(n, _, _) => if n in repos then repos else repos[n := []]
    case Run(c) =>
      if c.Expand? then repos[c.repoName := (if c.repoName in repos then repos[c.repoName] else []) + [c.version]]
      else repos
    case _ => repos
  }

  function ReposAfter(repos: map<string, seq<string>>, trace: seq<Event>): map<string, seq<string>>
  {
    if trace == [] then repos else ReposStep(ReposAfter(repos, trace[..|trace| - 1]), trace[|trace| - 1])
  }

  /** The remote once the calls in `trace` are applied: repositories and
      branches added, and each team's list as `Listing` reports it. */
  function RemoteAfter(org: string, remote: Remote, trace: seq<Event>): Remote
  {
    Remote(ReposAfter(remote.repos, trace),
           map t | t in remote.teamRepos :: Listing(org, remote, trace, t),
           remote.url)
  }

  /** Every repository of `repos` is in `repos'`, with at least its branches. */
  ghost predicate Covers(repos: map<string, seq<string>>, repos': map<string, seq<string>>)
  {
    forall n :: n in repos ==> n in repos' && forall v :: v in repos[n] ==> v in repos'[n]
  }

  lemma StepCovers(repos: map<string, seq<string>>, e: Event)
    ensures Covers(repos, ReposStep(repos, e))
  {
  }

  lemma CoversTransitive(a: map<string, seq<string>>, b: map<string, seq<string>>, c: map<string, seq<string>>)
    requires Covers(a, b) && Covers(b, c)
    ensures Covers(a, c)
  {
  }

  /** Applying calls never removes a repository or a branch. */
  lemma {:induction false} ReposAfterCovers(repos: map<string, seq<string>>, trace: seq<Event>)
    ensures Covers(repos, ReposAfter(repos, trace))
  {
    if trace != [] {
      var r := ReposAfter(repos, trace[..|trace| - 1]);
      ReposAfterCovers(repos, trace[..|trace| - 1]);
      StepCovers(r, trace[|trace| - 1]);
      CoversTransitive(repos, r, ReposAfter(repos, trace));
    }
  }

  /** Every repository a call of `trace` created, and every branch it
      bootstrapped, is in the repositories after `trace`. */
  lemma {:induction false} ReposAfterRecords(repos: map<string, seq<string>>, trace: seq<Event>)
    ensures forall e :: e in trace && e.CreateRepository? ==> e.name in ReposAfter(repos, trace)
    ensures forall e :: e in trace && e.Run? && e.command.Expand? ==>
              e.command.repoName in ReposAfter(repos, trace) && e.command.version in ReposAfter(repos, trace)[e.command.repoName]
  {
    if trace != [] {
      var prefix := trace[..|trace| - 1];
      var r := ReposAfter(repos, prefix);
      ReposAfterRecords(repos, prefix);
      StepCovers(r, trace[|trace| - 1]);
      forall e | e in trace
        ensures e.CreateRepository? ==> e.name in ReposAfter(repos, trace)
        ensures e.Run? && e.command.Expand? ==>
                  e.command.repoName in ReposAfter(repos, trace) && e.command.version in ReposAfter(repos, trace)[e.command.repoName]
      {
        if e != trace[|trace| - 1] {
          assert e in prefix;
        }
      }
    }
  }

  /** A team gains every repository named by a call of `trace` that gives it access. */
  lemma {:induction false} GainedHas(org: string, trace: seq<Event>, team: string, e: Event)
    requires e in trace
    ensures forall x :: x in GainedBy(org, e, team) ==> x in Gained(org, trace, team)
  {
    if e != trace[|trace| - 1] {
      GainedHas(org, trace[..|trace| - 1], team, e);
    }
  }

  /** A list read part way through a trace is contained in the list at its end. */
  lemma ListingGrows(org: string, remote: Remote, trace: seq<Event>, m: nat, team: string)
    requires team in remote.teamRepos && m <= |trace|
    ensures forall x :: x in Listing(org, remote, trace[..m], team) ==> x in Listing(org, remote, trace, team)
  {
    assert trace == trace[..m] + trace[m..];
    GainedConcat(org, trace[..m], trace[m..], team);
  }

  /** After a pass that applied an entry, the remote holds the entry's
      repository, every branch it lists, and the repository in its steward's
      list. */
  lemma InSyncAfter(setup: Setup, remote: Remote, q: Pass, name: string, entry: RepoEntry)
    requires Mirrors(setup.env.org, remote, q)
    requires Applied(setup, remote, q.trace, q.cache, name, entry)
    ensures var r := RemoteAfter(setup.env.org, remote, q.trace);
      && name in r.repos
      && (forall v :: v in entry.branches.value ==> v in ExistingBranches(r, name))
      && entry.psc.value in r.teamRepos && name in r.teamRepos[entry.psc.value]
  {
    var org := setup.env.org;
    var r := RemoteAfter(org, remote, q.trace);
    var psc := entry.psc.value;
    ReposAfterCovers(remote.repos, q.trace);
    ReposAfterRecords(remote.repos, q.trace);
    if name !in remote.repos {
      assert CreateRepository(name, name, setup.owner) in q.trace;
    }
    forall v | v in entry.branches.value
      ensures v in ExistingBranches(r, name)
    {
      if v !in ExistingBranches(remote, name) {
        assert Run(Expand(setup.env.template, name, name, v)) in q.trace;
      }
    }
    assert r.teamRepos[psc] == Listing(org, remote, q.trace, psc);
    if name in q.cache[psc] {
      var m :| 0 <= m <= |q.trace| && q.cache[psc] == Listing(org, remote, q.trace[..m], psc);
      ListingGrows(org, remote, q.trace, m, psc);
    } else {
      var push := AddRepository(psc, FullName(org, name), "push");
      var f := FullName(org, name);
      assert f[..|org| + 1] == org + "/" && f[|org| + 1..] == name;
      assert GainedBy(org, push, psc) == [name];
      GainedHas(org, q.trace, psc, push);
    }
  }

  /** Against a remote in sync with an entry, the only call the entry
      explains is the addition of one of its maintainers. */
  lemma OnlyCollaboratorsExplained(setup: Setup, r: Remote, cache: map<string, seq<string>>,
                                   name: string, entry: RepoEntry, e: Event)
    requires entry.psc.Some? && entry.branches.Some?
    requires name in r.repos && forall v :: v in entry.branches.value ==> v in ExistingBranches(r, name)
    requires entry.psc.value in r.teamRepos && name in r.teamRepos[entry.psc.value]
    requires ExplainedBy(setup, r, cache, name, entry, e)
    ensures e == AddCollaborator(name, e.login) && e.login in Listed(entry.maintainers)
  {
  }

  /** Running the repository pass again, on the remote a completed pass left
      behind, creates nothing, grants nothing and bootstraps nothing: its
      only calls are collaborator additions the first pass already made. */
  lemma SecondPassOnlyRepeatsCollaborators(setup: Setup, remote: Remote, docs: seq<(string, RepoEntry)>)
    requires Passes(setup, remote, docs).status.Running?
    ensures var q := Passes(setup, remote, docs);
            var q2 := Passes(setup, RemoteAfter(setup.env.org, remote, q.trace), docs);
      forall e :: e in q2.trace ==> e.AddCollaborator? && e in q.trace
  {
    var q := Passes(setup, remote, docs);
    var r := RemoteAfter(setup.env.org, remote, q.trace);
    var q2 := Passes(setup, r, docs);
    EveryDocApplied(setup, remote, docs);
    CacheMirrorsRemote(setup, remote, docs);
    EveryCallExplained(setup, r, docs);
    forall e | e in q2.trace
      ensures e.AddCollaborator? && e in q.trace
    {
      var k :| 0 <= k < |docs| && ExplainedBy(setup, r, q2.cache, docs[k].0, docs[k].1, e);
      InSyncAfter(setup, remote, q, docs[k].0, docs[k].1);
      OnlyCollaboratorsExplained(setup, r, q2.cache, docs[k].0, docs[k].1, e);
    }
  }
}
