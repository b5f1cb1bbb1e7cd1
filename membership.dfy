/** The team pass of generate.py: for every team of the roster document,
    get or create the team, then revoke the live logins that are desired in
    neither role and upsert the desired logins that do not yet hold their
    role. */
module Membership {
  import opened Events

  /** The outcome of looking a team up by name. */
  datatype Lookup = Found | NotFound

  /** What the remote reports for one team: whether the lookup found it, and
      the logins it lists with the member role and with the maintainer role
      (for a team that was not found, those of the team just created). */
  datatype LiveTeam = LiveTeam(lookup: Lookup, memberLogins: seq<string>, maintainerLogins: seq<string>)

  /** One entry of the team roster document; either key may be absent. */
  datatype RosterEntry = RosterEntry(members: Option<seq<string>>, representatives: Option<seq<string>>)

  /** The logins desired with the member role: the team's own members followed
      by the maintainers of the whole run. */
  function DesiredMembers(entry: RosterEntry, maintainers: seq<string>): seq<string>
  {
    Listed(entry.members) + maintainers
  }

  function DesiredRepresentatives(entry: RosterEntry): seq<string>
  {
    Listed(entry.representatives)
  }

  /** Get-or-create: a lookup that raised NotFound creates a closed team
      named after the slug; a team that was found costs no call. */
  function GetOrCreateTeam(slug: string, lookup: Lookup): (calls: seq<Event>)
    ensures calls == [] <==> lookup == Found
    ensures lookup == NotFound ==> calls == [CreateTeam(slug, "closed")]
  {
    match lookup
    case Found => []
    case NotFound => [CreateTeam(slug, "closed")]
  }

  // ---------------------------------------------------------------------
  // Specification of one team's calls
  // ---------------------------------------------------------------------

  /** The revocations issued while scanning the live logins of one role:
      a login is revoked when it is in neither desired list. */
  function Revocations(team: string, live: seq<string>, own: seq<string>, other: seq<string>): seq<Event>
  {
    if live == [] then []
    else
      var login := live[|live| - 1];
      Revocations(team, live[..|live| - 1], own, other)
        + (if login !in own && login !in other then [RevokeMembership(team, login)] else [])
  }

  /** The live logins confirmed in their desired role (`done_members`,
      `done_representatives`), in live order. */
  function Confirmed(live: seq<string>, own: seq<string>): seq<string>
  {
    if live == [] then []
    else
      var login := live[|live| - 1];
      Confirmed(live[..|live| - 1], own) + (if login in own then [login] else [])
  }

  /** One upsert per occurrence of a desired login that was not confirmed. */
  function Additions(team: string, desired: seq<string>, done: seq<string>, role: Role): seq<Event>
  {
    if desired == [] then []
    else
      var login := desired[|desired| - 1];
      Additions(team, desired[..|desired| - 1], done, role)
        + (if login !in done then [UpsertMembership(team, login, role)] else [])
  }

  /** All calls of one team, in the order the four loops issue them. */
  function TeamCalls(team: string, members: seq<string>, representatives: seq<string>,
                     liveMembers: seq<string>, liveMaintainers: seq<string>): seq<Event>
  {
    Revocations(team, liveMembers, members, representatives)
      + Revocations(team, liveMaintainers, representatives, members)
      + Additions(team, members, Confirmed(liveMembers, members), Member)
      + Additions(team, representatives, Confirmed(liveMaintainers, representatives), Maintainer)
  }

  /** The calls for one roster entry: get-or-create, then the membership diff. */
  function EntryCalls(slug: string, entry: RosterEntry, maintainers: seq<string>, live: LiveTeam): seq<Event>
  {
    GetOrCreateTeam(slug, live.lookup)
      + TeamCalls(slug, DesiredMembers(entry, maintainers), DesiredRepresentatives(entry),
                  live.memberLogins, live.maintainerLogins)
  }

  /** The calls for the whole roster document, in document order. */
  function RosterCalls(roster: seq<(string, RosterEntry)>, maintainers: seq<string>,
                       live: string -> LiveTeam): seq<Event>
  {
    if roster == [] then []
    else
      var (slug, entry) := roster[|roster| - 1];
      RosterCalls(roster[..|roster| - 1], maintainers, live) + EntryCalls(slug, entry, maintainers, live(slug))
  }

  // ---------------------------------------------------------------------
  // The pass itself
  // ---------------------------------------------------------------------

  /** The four loops of one team: two scans of the live roles that revoke or
      confirm, then two scans of the desired lists that upsert. */
  method ReconcileTeam(team: string, members: seq<string>, representatives: seq<string>,
                       liveMembers: seq<string>, liveMaintainers: seq<string>)
    returns (calls: seq<Event>)
    ensures calls == TeamCalls(team, members, representatives, liveMembers, liveMaintainers)
  {
    var memberRevocations, doneMembers := ScanRole(team, liveMembers, members, representatives);
    var maintainerRevocations, doneRepresentatives := ScanRole(team, liveMaintainers, representatives, members);
    var memberUpserts := AddMissing(team, members, doneMembers, Member);
    var maintainerUpserts := AddMissing(team, representatives, doneRepresentatives, Maintainer);
    calls := memberRevocations + maintainerRevocations + memberUpserts + maintainerUpserts;
  }

  /** One scan of the logins holding a role: a login desired in that role is
      confirmed, one desired in neither role is revoked. */
  method ScanRole(team: string, live: seq<string>, own: seq<string>, other: seq<string>)
    returns (calls: seq<Event>, done: seq<string>)
    ensures calls == Revocations(team, live, own, other)
    ensures done == Confirmed(live, own)
  {
    calls := [];
    done := [];
    var i := 0;
    while i < |live|
      invariant 0 <= i <= |live|
      invariant calls == Revocations(team, live[..i], own, other)
      invariant done == Confirmed(live[..i], own)
    {
      var login := live[i];
      if login !in own {
        if login !in other {
          calls := calls + [RevokeMembership(team, login)];
        }
      } else {
        done := done + [login];
      }
      assert live[..i + 1][..i] == live[..i];
      i := i + 1;
    }
    assert live[..i] == live;
  }

  /** One scan of a desired list: every login not confirmed in the role is
      upserted into it. */
  method AddMissing(team: string, desired: seq<string>, done: seq<string>, role: Role)
    returns (calls: seq<Event>)
    ensures calls == Additions(team, desired, done, role)
  {
    calls := [];
    var i := 0;
    while i < |desired|
      invariant 0 <= i <= |desired|
      invariant calls == Additions(team, desired[..i], done, role)
    {
      if desired[i] !in done {
        calls := calls + [UpsertMembership(team, desired[i], role)];
      }
      assert desired[..i + 1][..i] == desired[..i];
      i := i + 1;
    }
    assert desired[..i] == desired;
  }

  /** The calls of the team pass, and whether it got through the roster. */
  datatype TeamRun = TeamRun(calls: seq<Event>, completed: bool)

  /** The team pass, given the configuration's `maintainers` key. The key is
      read for each team after its get-or-create, so without it the first
      team's get-or-create is made and the run stops (`KeyError`). */
  function TeamPass(roster: seq<(string, RosterEntry)>, maintainers: Option<seq<string>>,
                    live: string -> LiveTeam): TeamRun
  {
    if roster == [] then TeamRun([], true)
    else if maintainers.None? then TeamRun(GetOrCreateTeam(roster[0].0, live(roster[0].0).lookup), false)
    else TeamRun(RosterCalls(roster, maintainers.value, live), true)
  }

  /** The loop over the roster document: each team is fetched or created and
      then reconciled against the desired members (its own followed by the
      run's maintainers) and representatives, missing keys read as empty. */
  method ReconcileTeams(roster: seq<(string, RosterEntry)>, maintainers: Option<seq<string>>, live: string -> LiveTeam)
    returns (calls: seq<Event>, completed: bool)
    ensures TeamRun(calls, completed) == TeamPass(roster, maintainers, live)
  {
    calls, completed := [], true;
    var k := 0;
    while k < |roster|
      invariant 0 <= k <= |roster|
      invariant k > 0 ==> maintainers.Some?
      invariant calls == if maintainers.Some? then RosterCalls(roster[..k], maintainers.value, live) else []
    {
      var (slug, entry) := roster[k];
      var team := live(slug);
      var created := GetOrCreateTeam(slug, team.lookup);
      if maintainers.None? {
        calls, completed := created, false;
        return;
      }
      var members := Listed(entry.members) + maintainers.value;
      var representatives := Listed(entry.representatives);
      var teamCalls := ReconcileTeam(slug, members, representatives, team.memberLogins, team.maintainerLogins);
      assert created + teamCalls == EntryCalls(slug, entry, maintainers.value, team);
      RosterCallsSnoc(roster, maintainers.value, live, k);
      calls := calls + (created + teamCalls);
      k := k + 1;
    }
    assert roster[..k] == roster;
  }

  /** Without the `maintainers` key a non-empty roster stops the run after at
      most one call, the creation of its first team; no membership changes.
      With the key, or with an empty roster, the pass completes. */
  lemma MissingMaintainersStopsAtFirstTeam(roster: seq<(string, RosterEntry)>, maintainers: Option<seq<string>>,
                                           live: string -> LiveTeam)
    ensures var r := TeamPass(roster, maintainers, live);
      && (r.completed <==> maintainers.Some? || roster == [])
      && (!r.completed ==> r.calls == [] || r.calls == [CreateTeam(roster[0].0, "closed")])
      && (r.completed && roster != [] ==> r.calls == RosterCalls(roster, maintainers.value, live))
  {
  }

  lemma RosterCallsSnoc(roster: seq<(string, RosterEntry)>, maintainers: seq<string>, live: string -> LiveTeam, k: nat)
    requires k < |roster|
    ensures RosterCalls(roster[..k + 1], maintainers, live)
         == RosterCalls(roster[..k], maintainers, live) + EntryCalls(roster[k].0, roster[k].1, maintainers, live(roster[k].0))
  {
    assert roster[..k + 1][..k] == roster[..k];
  }

  // ---------------------------------------------------------------------
  // What one team's calls are
  // ---------------------------------------------------------------------

  lemma {:induction false} RevocationsCount(team: string, live: seq<string>, own: seq<string>, other: seq<string>, login: string)
    ensures multiset(Revocations(team, live, own, other))[RevokeMembership(team, login)]
         == if login in own || login in other then 0 else multiset(live)[login]
  {
    if live != [] {
      var prefix := live[..|live| - 1];
      var last := live[|live| - 1];
      RevocationsCount(team, prefix, own, other, login);
      assert live == prefix + [last];
      assert multiset(live)[login] == multiset(prefix)[login] + (if last == login then 1 else 0);
      var step := if last !in own && last !in other then [RevokeMembership(team, last)] else [];
      assert multiset(Revocations(team, live, own, other))
          == multiset(Revocations(team, prefix, own, other)) + multiset(step);
    }
  }

  lemma {:induction false} RevocationsAreRevokes(team: string, live: seq<string>, own: seq<string>, other: seq<string>)
    ensures forall e :: e in Revocations(team, live, own, other) ==> e.RevokeMembership? && e.team == team
  {
    if live != [] {
      RevocationsAreRevokes(team, live[..|live| - 1], own, other);
    }
  }

  lemma {:induction false} ConfirmedLogins(live: seq<string>, own: seq<string>, login: string)
    ensures login in Confirmed(live, own) <==> login in live && login in own
  {
    if live != [] {
      var prefix := live[..|live| - 1];
      ConfirmedLogins(prefix, own, login);
      assert live == prefix + [live[|live| - 1]];
    }
  }

  lemma {:induction false} AdditionsCount(team: string, desired: seq<string>, done: seq<string>, role: Role, login: string)
    ensures multiset(Additions(team, desired, done, role))[UpsertMembership(team, login, role)]
         == if login in done then 0 else multiset(desired)[login]
  {
    if desired != [] {
      var prefix := desired[..|desired| - 1];
      var last := desired[|desired| - 1];
      AdditionsCount(team, prefix, done, role, login);
      assert desired == prefix + [last];
      assert multiset(desired)[login] == multiset(prefix)[login] + (if last == login then 1 else 0);
      var step := if last !in done then [UpsertMembership(team, last, role)] else [];
      assert multiset(Additions(team, desired, done, role))
          == multiset(Additions(team, prefix, done, role)) + multiset(step);
    }
  }

  lemma {:induction false} AdditionsAreUpserts(team: string, desired: seq<string>, done: seq<string>, role: Role)
    ensures forall e :: e in Additions(team, desired, done, role) ==> e.UpsertMembership? && e.team == team && e.role == role
  {
    if desired != [] {
      AdditionsAreUpserts(team, desired[..|desired| - 1], done, role);
    }
  }

  /** The revocation guard: a login is revoked once per live listing of it,
      and only when it is desired in neither role. */
  lemma {:induction false} RevocationGuard(team: string, members: seq<string>, representatives: seq<string>,
                                           liveMembers: seq<string>, liveMaintainers: seq<string>, login: string)
    ensures multiset(TeamCalls(team, members, representatives, liveMembers, liveMaintainers))[RevokeMembership(team, login)]
         == if login in members || login in representatives then 0
            else multiset(liveMembers)[login] + multiset(liveMaintainers)[login]
  {
    var revoke := RevokeMembership(team, login);
    RevocationsCount(team, liveMembers, members, representatives, login);
    RevocationsCount(team, liveMaintainers, representatives, members, login);
    var m := Additions(team, members, Confirmed(liveMembers, members), Member);
    var r := Additions(team, representatives, Confirmed(liveMaintainers, representatives), Maintainer);
    AdditionsAreUpserts(team, members, Confirmed(liveMembers, members), Member);
    AdditionsAreUpserts(team, representatives, Confirmed(liveMaintainers, representatives), Maintainer);
    assert revoke !in m && revoke !in r;
  }

  /** A login is revoked exactly when some role lists it live and it is in
      neither desired list; a desired login is never revoked. */
  lemma RevokedExactlyWhen(team: string, members: seq<string>, representatives: seq<string>,
                           liveMembers: seq<string>, liveMaintainers: seq<string>, login: string)
    ensures RevokeMembership(team, login) in TeamCalls(team, members, representatives, liveMembers, liveMaintainers) <==>
            (login in liveMembers || login in liveMaintainers) && login !in members && login !in representatives
  {
    RevocationGuard(team, members, representatives, liveMembers, liveMaintainers, login);
  }

  /** The upsert rule: each occurrence of a login in the desired members gets a
      member upsert exactly when the login is not a live member, and each
      occurrence in the desired representatives gets a maintainer upsert
      exactly when it is not a live maintainer. */
  lemma {:induction false} UpsertRule(team: string, members: seq<string>, representatives: seq<string>,
                   liveMembers: seq<string>, liveMaintainers: seq<string>, login: string)
    ensures multiset(TeamCalls(team, members, representatives, liveMembers, liveMaintainers))[UpsertMembership(team, login, Member)]
         == if login in liveMembers then 0 else multiset(members)[login]
    ensures multiset(TeamCalls(team, members, representatives, liveMembers, liveMaintainers))[UpsertMembership(team, login, Maintainer)]
         == if login in liveMaintainers then 0 else multiset(representatives)[login]
  {
    var asMember := UpsertMembership(team, login, Member);
    var asMaintainer := UpsertMembership(team, login, Maintainer);
    RevocationsAreRevokes(team, liveMembers, members, representatives);
    RevocationsAreRevokes(team, liveMaintainers, representatives, members);
    var doneMembers := Confirmed(liveMembers, members);
    var doneRepresentatives := Confirmed(liveMaintainers, representatives);
    AdditionsAreUpserts(team, members, doneMembers, Member);
    AdditionsAreUpserts(team, representatives, doneRepresentatives, Maintainer);
    AdditionsCount(team, members, doneMembers, Member, login);
    AdditionsCount(team, representatives, doneRepresentatives, Maintainer, login);
    ConfirmedLogins(liveMembers, members, login);
    ConfirmedLogins(liveMaintainers, representatives, login);
    assert asMember !in Revocations(team, liveMembers, members, representatives);
    assert asMember !in Revocations(team, liveMaintainers, representatives, members);
    assert asMember !in Additions(team, representatives, doneRepresentatives, Maintainer);
    assert asMaintainer !in Revocations(team, liveMembers, members, representatives);
    assert asMaintainer !in Revocations(team, liveMaintainers, representatives, members);
    assert asMaintainer !in Additions(team, members, doneMembers, Member);
  }

  /** Ordering: every call is a revocation or an upsert of this team, and no
      revocation follows an upsert. */
  lemma RevocationsFirst(team: string, members: seq<string>, representatives: seq<string>,
                         liveMembers: seq<string>, liveMaintainers: seq<string>)
    ensures var calls := TeamCalls(team, members, representatives, liveMembers, liveMaintainers);
      (forall e :: e in calls ==> (e.RevokeMembership? || e.UpsertMembership?) && e.team == team)
      && forall i, j :: 0 <= i < j < |calls| && calls[j].RevokeMembership? ==> calls[i].RevokeMembership?
  {
    var revokes := Revocations(team, liveMembers, members, representatives)
      + Revocations(team, liveMaintainers, representatives, members);
    var upserts := Additions(team, members, Confirmed(liveMembers, members), Member)
      + Additions(team, representatives, Confirmed(liveMaintainers, representatives), Maintainer);
    RevocationsAreRevokes(team, liveMembers, members, representatives);
    RevocationsAreRevokes(team, liveMaintainers, representatives, members);
    AdditionsAreUpserts(team, members, Confirmed(liveMembers, members), Member);
    AdditionsAreUpserts(team, representatives, Confirmed(liveMaintainers, representatives), Maintainer);
    assert TeamCalls(team, members, representatives, liveMembers, liveMaintainers) == revokes + upserts;
    RevokesThenUpserts(team, revokes, upserts);
  }

  lemma RevokesThenUpserts(team: string, revokes: seq<Event>, upserts: seq<Event>)
    requires forall e :: e in revokes ==> e.RevokeMembership? && e.team == team
    requires forall e :: e in upserts ==> e.UpsertMembership? && e.team == team
    ensures var calls := revokes + upserts;
      (forall e :: e in calls ==> (e.RevokeMembership? || e.UpsertMembership?) && e.team == team)
      && forall i, j :: 0 <= i < j < |calls| && calls[j].RevokeMembership? ==> calls[i].RevokeMembership?
  {
    var calls := revokes + upserts;
    forall k | 0 <= k < |calls|
      ensures calls[k].RevokeMembership? <==> k < |revokes|
    {
      if k < |revokes| {
        assert calls[k] == revokes[k] && revokes[k] in revokes;
      } else {
        assert calls[k] == upserts[k - |revokes|] && upserts[k - |revokes|] in upserts;
      }
    }
  }

  /** Fixed point: when the live member logins are exactly the desired members
      and the live maintainer logins exactly the desired representatives, the
      team pass issues no call at all. */
  lemma FixedPoint(team: string, members: seq<string>, representatives: seq<string>,
                   liveMembers: seq<string>, liveMaintainers: seq<string>)
    requires forall login :: login in liveMembers <==> login in members
    requires forall login :: login in liveMaintainers <==> login in representatives
    ensures TeamCalls(team, members, representatives, liveMembers, liveMaintainers) == []
  {
    RevocationsNone(team, liveMembers, members, representatives);
    RevocationsNone(team, liveMaintainers, representatives, members);
    forall login | login in members ensures login in Confirmed(liveMembers, members) {
      ConfirmedLogins(liveMembers, members, login);
    }
    forall login | login in representatives ensures login in Confirmed(liveMaintainers, representatives) {
      ConfirmedLogins(liveMaintainers, representatives, login);
    }
    AdditionsNone(team, members, Confirmed(liveMembers, members), Member);
    AdditionsNone(team, representatives, Confirmed(liveMaintainers, representatives), Maintainer);
  }

  lemma {:induction false} RevocationsNone(team: string, live: seq<string>, own: seq<string>, other: seq<string>)
    requires forall login :: login in live ==> login in own || login in other
    ensures Revocations(team, live, own, other) == []
  {
    if live != [] {
      RevocationsNone(team, live[..|live| - 1], own, other);
    }
  }

  lemma {:induction false} AdditionsNone(team: string, desired: seq<string>, done: seq<string>, role: Role)
    requires forall login :: login in desired ==> login in done
    ensures Additions(team, desired, done, role) == []
  {
    if desired != [] {
      AdditionsNone(team, desired[..|desired| - 1], done, role);
    }
  }

  /** Two consequences of the guard: a live maintainer desired only as a
      member is demoted by a member upsert and not revoked; a live member
      desired only as a representative is promoted and not revoked. */
  lemma DemotionAndPromotion(team: string, members: seq<string>, representatives: seq<string>,
                             liveMembers: seq<string>, liveMaintainers: seq<string>, login: string)
    ensures var calls := TeamCalls(team, members, representatives, liveMembers, liveMaintainers);
              login in liveMaintainers && login !in liveMembers && login in members && login !in representatives ==>
                UpsertMembership(team, login, Member) in calls && RevokeMembership(team, login) !in calls
    ensures var calls := TeamCalls(team, members, representatives, liveMembers, liveMaintainers);
              login in liveMembers && login !in liveMaintainers && login in representatives && login !in members ==>
                UpsertMembership(team, login, Maintainer) in calls && RevokeMembership(team, login) !in calls
  {
    RevokedExactlyWhen(team, members, representatives, liveMembers, liveMaintainers, login);
    UpsertRule(team, members, representatives, liveMembers, liveMaintainers, login);
  }

  // ---------------------------------------------------------------------
  // The remote's effect, and what a second run sees
  // ---------------------------------------------------------------------

  /** The remote's state of one team: each login holds at most one role. */
  type Roles = map<string, Role>

  /** A revocation drops the login; an upsert gives it exactly the new role. */
  function ApplyCall(roles: Roles, call: Event): Roles
  {
    match call
    case RevokeMembership(_, login) => roles - {login}
    case UpsertMembership(_, login, role) => roles[login := role]
    case _ => roles
  }

  function Apply(roles: Roles, calls: seq<Event>): Roles
  {
    if calls == [] then roles
    else ApplyCall(Apply(roles, calls[..|calls| - 1]), calls[|calls| - 1])
  }

  /** The two role listings report exactly the logins holding each role. */
  ghost predicate Lists(roles: Roles, liveMembers: seq<string>, liveMaintainers: seq<string>)
  {
    && (forall login :: login in liveMembers <==> login in roles && roles[login] == Member)
    && (forall login :: login in liveMaintainers <==> login in roles && roles[login] == Maintainer)
  }

  lemma {:induction false} ApplyConcat(roles: Roles, a: seq<Event>, b: seq<Event>)
    ensures Apply(roles, a + b) == Apply(Apply(roles, a), b)
  {
    if b == [] {
      assert a + b == a;
    } else {
      var prefix := b[..|b| - 1];
      ApplyConcat(roles, a, prefix);
      assert (a + b)[..|a + b| - 1] == a + prefix;
    }
  }

  lemma {:induction false} ApplyRevocations(roles: Roles, team: string, live: seq<string>, own: seq<string>, other: seq<string>)
    ensures Apply(roles, Revocations(team, live, own, other)) == roles - Dropped(live, own, other)
  {
    if live == [] {
      assert Dropped(live, own, other) == {};
      assert roles - {} == roles;
    } else {
      var prefix := live[..|live| - 1];
      var login := live[|live| - 1];
      ApplyRevocations(roles, team, prefix, own, other);
      var earlier := Revocations(team, prefix, own, other);
      DroppedSnoc(live, own, other);
      if login !in own && login !in other {
        var revoke := RevokeMembership(team, login);
        assert Revocations(team, live, own, other) == earlier + [revoke];
        ApplyConcat(roles, earlier, [revoke]);
        ApplyOne(roles - Dropped(prefix, own, other), revoke);
        MapMinusMinus(roles, Dropped(prefix, own, other), login);
      } else {
        assert Revocations(team, live, own, other) == earlier + [];
        assert earlier + [] == earlier;
      }
    }
  }

  lemma DroppedSnoc(live: seq<string>, own: seq<string>, other: seq<string>)
    requires live != []
    ensures Dropped(live, own, other)
         == Dropped(live[..|live| - 1], own, other)
            + (if live[|live| - 1] !in own && live[|live| - 1] !in other then {live[|live| - 1]} else {})
  {
    assert live == live[..|live| - 1] + [live[|live| - 1]];
  }

  lemma MapMinusMinus(roles: Roles, dropped: set<string>, login: string)
    ensures roles - dropped - {login} == roles - (dropped + {login})
  {
  }

  lemma {:induction false} ApplyAdditions(roles: Roles, team: string, desired: seq<string>, done: seq<string>, role: Role)
    ensures Apply(roles, Additions(team, desired, done, role)) == roles + Upserted(desired, done, role)
  {
    if desired == [] {
      assert Upserted(desired, done, role) == map[];
    } else {
      var prefix := desired[..|desired| - 1];
      var login := desired[|desired| - 1];
      assert desired == prefix + [login];
      ApplyAdditions(roles, team, prefix, done, role);
      UpsertedSnoc(prefix, login, done, role);
      var earlier := Additions(team, prefix, done, role);
      var u0 := Upserted(prefix, done, role);
      if login !in done {
        var upsert := UpsertMembership(team, login, role);
        assert Additions(team, desired, done, role) == earlier + [upsert];
        ApplyConcat(roles, earlier, [upsert]);
        ApplyOne(roles + u0, upsert);
        MapUnionUpdate(roles, u0, login, role);
      } else {
        assert Additions(team, desired, done, role) == earlier + [];
        assert earlier + [] == earlier;
      }
    }
  }

  lemma ApplyOne(roles: Roles, call: Event)
    ensures Apply(roles, [call]) == ApplyCall(roles, call)
  {
    assert [call][..0] == [];
  }

  lemma MapUnionUpdate(a: Roles, b: Roles, login: string, role: Role)
    ensures a + b[login := role] == (a + b)[login := role]
  {
  }

  lemma UpsertedSnoc(prefix: seq<string>, login: string, done: seq<string>, role: Role)
    ensures Upserted(prefix + [login], done, role)
         == if login in done then Upserted(prefix, done, role) else Upserted(prefix, done, role)[login := role]
  {
    var whole := prefix + [login];
    assert forall l :: l in whole <==> l in prefix || l == login;
  }

  /** The logins removed by the revocations of one live listing. */
  function Dropped(live: seq<string>, own: seq<string>, other: seq<string>): set<string>
  {
    set login | login in live && login !in own && login !in other
  }

  /** The roles given by the upserts of one desired list. */
  function Upserted(desired: seq<string>, done: seq<string>, role: Role): Roles
  {
    map login | login in desired && login !in done :: role
  }

  /** The remote's state after one pass, as one map expression. */
  lemma AfterPass(team: string, members: seq<string>, representatives: seq<string>,
                  roles: Roles, liveMembers: seq<string>, liveMaintainers: seq<string>)
    ensures Apply(roles, TeamCalls(team, members, representatives, liveMembers, liveMaintainers))
         == (roles - Dropped(liveMembers, members, representatives) - Dropped(liveMaintainers, representatives, members))
            + Upserted(members, Confirmed(liveMembers, members), Member)
            + Upserted(representatives, Confirmed(liveMaintainers, representatives), Maintainer)
  {
    var r1 := Revocations(team, liveMembers, members, representatives);
    var r2 := Revocations(team, liveMaintainers, representatives, members);
    var doneMembers := Confirmed(liveMembers, members);
    var doneRepresentatives := Confirmed(liveMaintainers, representatives);
    var a1 := Additions(team, members, doneMembers, Member);
    var a2 := Additions(team, representatives, doneRepresentatives, Maintainer);
    ApplyConcat(roles, r1, r2);
    ApplyConcat(roles, r1 + r2, a1);
    ApplyConcat(roles, r1 + r2 + a1, a2);
    ApplyRevocations(roles, team, liveMembers, members, representatives);
    var s1 := roles - Dropped(liveMembers, members, representatives);
    ApplyRevocations(s1, team, liveMaintainers, representatives, members);
    var s2 := s1 - Dropped(liveMaintainers, representatives, members);
    ApplyAdditions(s2, team, members, doneMembers, Member);
    ApplyAdditions(s2 + Upserted(members, doneMembers, Member), team, representatives, doneRepresentatives, Maintainer);
  }

  /** The role each login holds once the remote has applied one team pass:
      logins desired in neither role are gone, logins desired in one role hold
      it, and a login desired in both roles trades the role it held as a
      maintainer for member and any other state for maintainer. */
  lemma RolesAfterPass(team: string, members: seq<string>, representatives: seq<string>,
                       roles: Roles, liveMembers: seq<string>, liveMaintainers: seq<string>, login: string)
    requires Lists(roles, liveMembers, liveMaintainers)
    ensures var after := Apply(roles, TeamCalls(team, members, representatives, liveMembers, liveMaintainers));
      && (login in after <==> login in members || login in representatives)
      && (login in members && login !in representatives ==> after[login] == Member)
      && (login !in members && login in representatives ==> after[login] == Maintainer)
      && (login in members && login in representatives ==>
            (after[login] == Member <==> login in roles && roles[login] == Maintainer))
  {
    AfterPass(team, members, representatives, roles, liveMembers, liveMaintainers);
    ConfirmedLogins(liveMembers, members, login);
    ConfirmedLogins(liveMaintainers, representatives, login);
    assert login in liveMembers <==> login in roles && roles[login] == Member;
    assert login in liveMaintainers <==> login in roles && roles[login] == Maintainer;
  }

  /** Idempotence where the desired roles do not overlap: after the remote has
      applied one pass, a second pass over what it then lists issues nothing. */
  lemma SecondPassIsEmpty(team: string, members: seq<string>, representatives: seq<string>,
                          roles: Roles, liveMembers: seq<string>, liveMaintainers: seq<string>,
                          nextMembers: seq<string>, nextMaintainers: seq<string>)
    requires forall login :: login in members ==> login !in representatives
    requires Lists(roles, liveMembers, liveMaintainers)
    requires Lists(Apply(roles, TeamCalls(team, members, representatives, liveMembers, liveMaintainers)),
                   nextMembers, nextMaintainers)
    ensures TeamCalls(team, members, representatives, nextMembers, nextMaintainers) == []
  {
    forall login ensures login in nextMembers <==> login in members {
      RolesAfterPass(team, members, representatives, roles, liveMembers, liveMaintainers, login);
    }
    forall login ensures login in nextMaintainers <==> login in representatives {
      RolesAfterPass(team, members, representatives, roles, liveMembers, liveMaintainers, login);
    }
    FixedPoint(team, members, representatives, nextMembers, nextMaintainers);
  }

  /** No fixed point for a login desired in both roles (for instance a run
      maintainer who also represents the team): every pass changes the role it
      holds, so every pass issues a call for it. */
  lemma BothRolesNeverSettle(team: string, members: seq<string>, representatives: seq<string>,
                             roles: Roles, liveMembers: seq<string>, liveMaintainers: seq<string>, login: string)
    requires Lists(roles, liveMembers, liveMaintainers)
    requires login in members && login in representatives
    ensures var after := Apply(roles, TeamCalls(team, members, representatives, liveMembers, liveMaintainers));
      login in after && (login in roles ==> after[login] != roles[login])
    ensures TeamCalls(team, members, representatives, liveMembers, liveMaintainers) != []
  {
    RolesAfterPass(team, members, representatives, roles, liveMembers, liveMaintainers, login);
  }

  // ---------------------------------------------------------------------
  // The whole roster
  // ---------------------------------------------------------------------

  /** Across the roster, a revocation names a listed team and a live login of
      that team that the entry desires in neither role. */
  lemma {:induction false} RosterRevokesOnlyUndesired(roster: seq<(string, RosterEntry)>, maintainers: seq<string>,
                                                      live: string -> LiveTeam, team: string, login: string)
    ensures RevokeMembership(team, login) in RosterCalls(roster, maintainers, live) ==>
              exists i :: UndesiredIn(roster, maintainers, live, team, login, i)
  {
    if roster != [] && RevokeMembership(team, login) in RosterCalls(roster, maintainers, live) {
      var n := |roster| - 1;
      var (slug, entry) := roster[n];
      var prefix := roster[..n];
      assert RosterCalls(roster, maintainers, live)
          == RosterCalls(prefix, maintainers, live) + EntryCalls(slug, entry, maintainers, live(slug));
      if RevokeMembership(team, login) in RosterCalls(prefix, maintainers, live) {
        RosterRevokesOnlyUndesired(prefix, maintainers, live, team, login);
        var i :| UndesiredIn(prefix, maintainers, live, team, login, i);
        assert roster[i] == prefix[i];
        assert UndesiredIn(roster, maintainers, live, team, login, i);
      } else {
        EntryRevokesOnlyUndesired(slug, entry, maintainers, live(slug), team, login);
        assert UndesiredIn(roster, maintainers, live, team, login, n);
      }
    }
  }

  /** Entry `i` of the roster is team `team`, which lists `login` live in some
      role, and desires it in neither. */
  ghost predicate UndesiredIn(roster: seq<(string, RosterEntry)>, maintainers: seq<string>,
                              live: string -> LiveTeam, team: string, login: string, i: int)
  {
    && 0 <= i < |roster|
    && roster[i].0 == team
    && (login in live(team).memberLogins || login in live(team).maintainerLogins)
    && login !in DesiredMembers(roster[i].1, maintainers)
    && login !in DesiredRepresentatives(roster[i].1)
  }

  lemma EntryRevokesOnlyUndesired(slug: string, entry: RosterEntry, maintainers: seq<string>, t: LiveTeam,
                                  team: string, login: string)
    requires RevokeMembership(team, login) in EntryCalls(slug, entry, maintainers, t)
    ensures slug == team
    ensures login in t.memberLogins || login in t.maintainerLogins
    ensures login !in DesiredMembers(entry, maintainers) && login !in DesiredRepresentatives(entry)
  {
    var members := DesiredMembers(entry, maintainers);
    var representatives := DesiredRepresentatives(entry);
    var calls := TeamCalls(slug, members, representatives, t.memberLogins, t.maintainerLogins);
    assert RevokeMembership(team, login) !in GetOrCreateTeam(slug, t.lookup);
    assert RevokeMembership(team, login) in calls;
    RevocationsFirst(slug, members, representatives, t.memberLogins, t.maintainerLogins);
    RevokedExactlyWhen(slug, members, representatives, t.memberLogins, t.maintainerLogins, login);
  }

  /** A roster whose teams all exist and already hold exactly their desired
      roles produces no call. */
  lemma {:induction false} RosterFixedPoint(roster: seq<(string, RosterEntry)>, maintainers: seq<string>, live: string -> LiveTeam)
    requires forall i :: 0 <= i < |roster| ==> InSync(roster[i].1, maintainers, live(roster[i].0))
    ensures RosterCalls(roster, maintainers, live) == []
  {
    if roster != [] {
      var n := |roster| - 1;
      var (slug, entry) := roster[n];
      var prefix := roster[..n];
      assert forall i :: 0 <= i < |prefix| ==> prefix[i] == roster[i];
      RosterFixedPoint(prefix, maintainers, live);
      var t := live(slug);
      assert InSync(entry, maintainers, t);
      FixedPoint(slug, DesiredMembers(entry, maintainers), DesiredRepresentatives(entry), t.memberLogins, t.maintainerLogins);
    }
  }

  /** A team that exists and already holds exactly its desired roles. */
  ghost predicate InSync(entry: RosterEntry, maintainers: seq<string>, team: LiveTeam)
  {
    && team.lookup == Found
    && (forall login :: login in team.memberLogins <==> login in DesiredMembers(entry, maintainers))
    && (forall login :: login in team.maintainerLogins <==> login in DesiredRepresentatives(entry))
  }
}
