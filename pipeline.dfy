/** The two scripts together: the documents the extraction script writes,
    read back by the generator against the same organization. */
module Pipeline {
  import opened Events
  import Membership
  import Repositories
  import FillData

  /** A roster document entry as the generator reads it. */
  function AsRosterEntry(data: FillData.TeamData): Membership.RosterEntry
  {
    Membership.RosterEntry(Some(data.members), Some(data.representatives))
  }

  /** Reconciling a team against the roster entry just extracted from it
      revokes exactly its bots that are not maintainers of the run, adds as
      members exactly the run's maintainers it lacks, and adds no maintainer. */
  lemma ExtractedTeamIsSettled(team: FillData.OrgTeam, maintainers: seq<string>, login: string)
    ensures var entry := AsRosterEntry(FillData.TeamEntry(team));
            var calls := Membership.TeamCalls(team.slug, Membership.DesiredMembers(entry, maintainers),
                                              Membership.DesiredRepresentatives(entry),
                                              team.memberLogins, team.maintainerLogins);
      && (RevokeMembership(team.slug, login) in calls <==>
            (login in team.memberLogins || login in team.maintainerLogins) && login in FillData.Bots && login !in maintainers)
      && (UpsertMembership(team.slug, login, Member) in calls <==> login in maintainers && login !in team.memberLogins)
      && UpsertMembership(team.slug, login, Maintainer) !in calls
  {
    var entry := AsRosterEntry(FillData.TeamEntry(team));
    var members := Membership.DesiredMembers(entry, maintainers);
    var representatives := Membership.DesiredRepresentatives(entry);
    Membership.RevokedExactlyWhen(team.slug, members, representatives, team.memberLogins, team.maintainerLogins, login);
    Membership.UpsertRule(team.slug, members, representatives, team.memberLogins, team.maintainerLogins, login);
    FillData.WithoutBotsCount(team.memberLogins, login);
    FillData.WithoutBotsCount(team.maintainerLogins, login);
    assert multiset(members)[login] == multiset(FillData.WithoutBots(team.memberLogins))[login] + multiset(maintainers)[login];
  }

  /** A repository document entry as the generator reads it: the extraction
      writes no `maintainers` and no `branches`. */
  function AsRepoEntry(data: FillData.RepoData): Repositories.RepoEntry
  {
    Repositories.RepoEntry(Some(data.psc), None, None)
  }

  /** Fed to the repository pass unchanged, the extracted repository document
      stops the pass at its first repository: its steward is not found, or
      it has no `branches`. */
  lemma ExtractedReposStopThePass(setup: Repositories.Setup, remote: Repositories.Remote,
                                  docs: seq<(string, FillData.RepoData)>)
    requires docs != []
    ensures var entries := seq(|docs|, i requires 0 <= i < |docs| => (docs[i].0, AsRepoEntry(docs[i].1)));
            var status := Repositories.Passes(setup, remote, entries).status;
      || status == Repositories.Aborted(Repositories.StewardNotFound(docs[0].1.psc))
      || status == Repositories.Aborted(Repositories.MissingBranches(docs[0].0))
  {
    var entries := seq(|docs|, i requires 0 <= i < |docs| => (docs[i].0, AsRepoEntry(docs[i].1)));
    var first := entries[..1];
    assert first[..0] == [];
    assert first[0] == (docs[0].0, AsRepoEntry(docs[0].1));
    Repositories.AbortIsFinal(setup, remote, entries, 1);
  }
}
