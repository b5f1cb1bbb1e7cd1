/** The document extraction script (fill_data.py): read the organization's
    teams into a roster document and its repositories into a repository
    document. Excluded teams and bot logins are dropped; a repository's
    steward ("psc") is its first team other than the board. */
module FillData {
  import opened Events

  /** Team slugs left out of the roster (fill_data.py:12). */
  const ExcludedTeams: seq<string> := ["oca-contributors", "oca-members"]

  /** Bot logins left out of every team (fill_data.py:16, 20). */
  const Bots: seq<string> := ["oca-travis", "oca-transbot", "OCA-git-bot"]

  /** The steward every repository defaults to (fill_data.py:32, 35). */
  const Board: string := "board"

  /** A team as the organization lists it, with its member-role and
      maintainer-role logins in listing order. */
  datatype OrgTeam = OrgTeam(slug: string, name: string, memberLogins: seq<string>, maintainerLogins: seq<string>)

  /** A roster document entry. */
  datatype TeamData = TeamData(name: string, representatives: seq<string>, members: seq<string>)

  // ---------------------------------------------------------------------
  // Bot logins
  // ---------------------------------------------------------------------

  /** The logins that are not bots, in their order. */
  function WithoutBots(logins: seq<string>): (kept: seq<string>)
    ensures forall login :: login in kept <==> login in logins && login !in Bots
    ensures |kept| <= |logins|
  {
    if logins == [] then []
    else
      var last := logins[|logins| - 1];
      WithoutBots(logins[..|logins| - 1]) + (if last in Bots then [] else [last])
  }

  /** Filtering commutes with concatenation: the kept logins keep their order. */
  lemma {:induction false} WithoutBotsAppend(a: seq<string>, b: seq<string>)
    ensures WithoutBots(a + b) == WithoutBots(a) + WithoutBots(b)
    decreases |b|
  {
    if b == [] {
      assert a + b == a;
    } else {
      var b' := b[..|b| - 1];
      assert (a + b)[..|a + b| - 1] == a + b';
      WithoutBotsAppend(a, b');
    }
  }

  /** Each non-bot login is kept as often as it occurs; no bot is kept. */
  lemma {:induction false} WithoutBotsCount(logins: seq<string>, login: string)
    ensures multiset(WithoutBots(logins))[login] == if login in Bots then 0 else multiset(logins)[login]
  {
    if logins != [] {
      var prefix := logins[..|logins| - 1];
      var last := logins[|logins| - 1];
      WithoutBotsCount(prefix, login);
      assert logins == prefix + [last];
      assert multiset(logins)[login] == multiset(prefix)[login] + (if last == login then 1 else 0);
      var step := if last in Bots then [] else [last];
      assert multiset(WithoutBots(logins)) == multiset(WithoutBots(prefix)) + multiset(step);
    }
  }

  /** A list without bots is kept whole. */
  lemma {:induction false} WithoutBotsKeepsHumans(logins: seq<string>)
    requires forall login :: login in logins ==> login !in Bots
    ensures WithoutBots(logins) == logins
  {
    if logins != [] {
      var prefix := logins[..|logins| - 1];
      WithoutBotsKeepsHumans(prefix);
      assert logins == prefix + [logins[|logins| - 1]];
    }
  }

  /** The loops at fill_data.py:15-18 and 19-22: append each listed login
      that is not a bot. */
  method DropBots(logins: seq<string>) returns (kept: seq<string>)
    ensures kept == WithoutBots(logins)
  {
    kept := [];
    var i := 0;
    while i < |logins|
      invariant 0 <= i <= |logins|
      invariant kept == WithoutBots(logins[..i])
    {
      assert logins[..i + 1][..i] == logins[..i];
      var login := logins[i];
      i := i + 1;
      if login in Bots {
        continue;
      }
      kept := kept + [login];
    }
    assert logins[..i] == logins;
  }

  // ---------------------------------------------------------------------
  // The roster document
  // ---------------------------------------------------------------------

  /** The roster entry of one team. */
  function TeamEntry(team: OrgTeam): TeamData
  {
    TeamData(team.name, WithoutBots(team.maintainerLogins), WithoutBots(team.memberLogins))
  }

  /** The roster after the listed teams; a later team with the same slug
      replaces an earlier entry. */
  function Roster(teams: seq<OrgTeam>): map<string, TeamData>
  {
    if teams == [] then map[]
    else
      var team := teams[|teams| - 1];
      var roster := Roster(teams[..|teams| - 1]);
      if team.slug in ExcludedTeams then roster else roster[team.slug := TeamEntry(team)]
  }

  /** The loop at fill_data.py:11-23. */
  method ExtractTeams(teams: seq<OrgTeam>) returns (roster: map<string, TeamData>)
    ensures roster == Roster(teams)
  {
    roster := map[];
    var i := 0;
    while i < |teams|
      invariant 0 <= i <= |teams|
      invariant roster == Roster(teams[..i])
    {
      assert teams[..i + 1][..i] == teams[..i];
      var team := teams[i];
      i := i + 1;
      if team.slug in ExcludedTeams {
        continue;
      }
      var members := DropBots(team.memberLogins);
      var representatives := DropBots(team.maintainerLogins);
      roster := roster[team.slug := TeamData(team.name, representatives, members)];
    }
    assert teams[..i] == teams;
  }

  /** The roster has an entry for exactly the listed teams that are not
      excluded. */
  lemma {:induction false} RosterKeys(teams: seq<OrgTeam>)
    ensures forall slug :: slug in Roster(teams) <==>
              slug !in ExcludedTeams && exists k :: 0 <= k < |teams| && teams[k].slug == slug
  {
    if teams != [] {
      var prefix := teams[..|teams| - 1];
      RosterKeys(prefix);
      forall slug | slug !in ExcludedTeams && (exists k :: 0 <= k < |teams| && teams[k].slug == slug)
        ensures slug in Roster(teams)
      {
        var k :| 0 <= k < |teams| && teams[k].slug == slug;
        if k < |teams| - 1 {
          assert prefix[k].slug == slug;
        }
      }
      forall slug | slug in Roster(teams)
        ensures exists k :: 0 <= k < |teams| && teams[k].slug == slug
      {
        if slug in Roster(prefix) {
          var k :| 0 <= k < |prefix| && prefix[k].slug == slug;
          assert teams[k].slug == slug;
        } else {
          assert teams[|teams| - 1].slug == slug;
        }
      }
    }
  }

  lemma {:induction false} ExcludedNeverListed(teams: seq<OrgTeam>, slug: string)
    requires slug in ExcludedTeams
    ensures slug !in Roster(teams)
  {
    if teams != [] {
      ExcludedNeverListed(teams[..|teams| - 1], slug);
    }
  }

  /** Team `k` is the last listed team with slug `slug`. */
  ghost predicate LastTeam(teams: seq<OrgTeam>, k: int, slug: string)
  {
    && 0 <= k < |teams| && teams[k].slug == slug
    && forall j :: k < j < |teams| ==> teams[j].slug != slug
  }

  /** Each entry comes from the last listed team with that slug: it carries
      the team's name, its member-role logins as `members` and its
      maintainer-role logins as `representatives`, in listing order and
      without bots. */
  lemma {:induction false} RosterEntries(teams: seq<OrgTeam>, slug: string)
    requires slug in Roster(teams)
    ensures exists k :: LastTeam(teams, k, slug) && Roster(teams)[slug] == TeamEntry(teams[k])
  {
    var n := |teams| - 1;
    var prefix := teams[..n];
    if slug in ExcludedTeams {
      ExcludedNeverListed(teams, slug);
    }
    if teams[n].slug == slug {
      assert LastTeam(teams, n, slug);
    } else {
      RosterEntries(prefix, slug);
      var k :| LastTeam(prefix, k, slug) && Roster(prefix)[slug] == TeamEntry(prefix[k]);
      LastTeamExtends(teams, k, slug);
    }
  }

  lemma LastTeamExtends(teams: seq<OrgTeam>, k: int, slug: string)
    requires teams != [] && LastTeam(teams[..|teams| - 1], k, slug) && teams[|teams| - 1].slug != slug
    ensures LastTeam(teams, k, slug) && teams[k] == teams[..|teams| - 1][k]
  {
  }

  /** No bot login appears in any roster entry. */
  lemma NoBotsInRoster(teams: seq<OrgTeam>, slug: string, login: string)
    requires slug in Roster(teams) && login in Bots
    ensures login !in Roster(teams)[slug].members && login !in Roster(teams)[slug].representatives
  {
    RosterEntries(teams, slug);
  }

  // ---------------------------------------------------------------------
  // The repository document
  // ---------------------------------------------------------------------

  /** What listing a repository's teams yields: the team slugs produced
      before the listing ends, and whether it then raises NotFoundError. */
  datatype TeamListing = TeamListing(slugs: seq<string>, notFound: bool)

  datatype OrgRepo = OrgRepo(name: string, description: Option<string>, teams: TeamListing)

  /** A repository document entry: the description under `name`, and the
      steward. */
  datatype RepoData = RepoData(name: Option<string>, psc: string)

  /** The first slug that is not the board, or the board when there is none. */
  function FirstSteward(slugs: seq<string>): (psc: string)
    ensures psc == Board <==> forall k :: 0 <= k < |slugs| ==> slugs[k] == Board
    ensures psc != Board ==>
              exists k :: 0 <= k < |slugs| && slugs[k] == psc && forall j :: 0 <= j < k ==> slugs[j] == Board
  {
    if slugs == [] then Board
    else if slugs[0] != Board then slugs[0]
    else
      var psc := FirstSteward(slugs[1..]);
      assert forall k :: 1 <= k < |slugs| ==> slugs[k] == slugs[1..][k - 1];
      psc
  }

  /** The loop at fill_data.py:32-39: keep the board unless a listed team is
      not the board, stopping at the first such team; a NotFoundError from
      the listing leaves the steward as it is. */
  method StewardOf(listing: TeamListing) returns (psc: string)
    ensures psc == FirstSteward(listing.slugs)
  {
    psc := Board;
    var slugs := listing.slugs;
    var i := 0;
    while i < |slugs|
      invariant 0 <= i <= |slugs|
      invariant psc == Board
      invariant FirstSteward(slugs) == FirstSteward(slugs[i..])
    {
      if slugs[i] != Board {
        psc := slugs[i];
        break;
      }
      assert slugs[i..][1..] == slugs[i + 1..];
      i := i + 1;
    }
    if i == |slugs| {
      // The listing is exhausted, and raises here when `notFound`; the
      // exception is swallowed and the steward stays the board.
      assert slugs[i..] == [];
    }
  }

  /** The repository document after the listed repositories. */
  function RepoDocs(repos: seq<OrgRepo>): map<string, RepoData>
  {
    if repos == [] then map[]
    else
      var repo := repos[|repos| - 1];
      RepoDocs(repos[..|repos| - 1])[repo.name := RepoData(repo.description, FirstSteward(repo.teams.slugs))]
  }

  /** The loop at fill_data.py:30-40. */
  method ExtractRepos(repos: seq<OrgRepo>) returns (docs: map<string, RepoData>)
    ensures docs == RepoDocs(repos)
  {
    docs := map[];
    var i := 0;
    while i < |repos|
      invariant 0 <= i <= |repos|
      invariant docs == RepoDocs(repos[..i])
    {
      assert repos[..i + 1][..i] == repos[..i];
      var repo := repos[i];
      var psc := StewardOf(repo.teams);
      docs := docs[repo.name := RepoData(repo.description, psc)];
      i := i + 1;
    }
    assert repos[..i] == repos;
  }

  /** Every listed repository gets exactly one entry. */
  lemma {:induction false} RepoDocsKeys(repos: seq<OrgRepo>)
    ensures forall name :: name in RepoDocs(repos) <==> exists k :: 0 <= k < |repos| && repos[k].name == name
  {
    if repos != [] {
      var n := |repos| - 1;
      var prefix := repos[..n];
      RepoDocsKeys(prefix);
      assert forall k :: 0 <= k < n ==> repos[k] == prefix[k];
      forall name | name in RepoDocs(repos)
        ensures exists k :: 0 <= k < |repos| && repos[k].name == name
      {
        if name != repos[n].name {
          assert name in RepoDocs(prefix);
          var k :| 0 <= k < n && prefix[k].name == name;
          assert repos[k].name == name;
        } else {
          assert repos[n].name == name;
        }
      }
    }
  }

  /** Repository `k` is the last listed one with its name. */
  ghost predicate LastRepo(repos: seq<OrgRepo>, k: int)
  {
    && 0 <= k < |repos|
    && forall j :: k < j < |repos| ==> repos[j].name != repos[k].name
  }

  /** A repository's entry holds its description and its steward; with
      equal names the last listed one wins. */
  lemma {:induction false} RepoDocsValues(repos: seq<OrgRepo>, k: int)
    requires LastRepo(repos, k)
    ensures repos[k].name in RepoDocs(repos)
    ensures RepoDocs(repos)[repos[k].name] == RepoData(repos[k].description, FirstSteward(repos[k].teams.slugs))
  {
    var n := |repos| - 1;
    if k < n {
      var prefix := repos[..n];
      assert prefix[k] == repos[k];
      assert LastRepo(prefix, k);
      RepoDocsValues(prefix, k);
    }
  }
}
