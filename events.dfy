/** Vocabulary shared by the two reconciliation scripts: optional document
    values, the remote's team roles, the external commands of a branch
    bootstrap, and the events a run appends to its trace. A remote call is
    recorded as the event that names it; the remote's replies are inputs. */
module Events {

  datatype Option<T> = None | Some(value: T)

  /** Python truthiness of an optional string: both `None` and `""` are false. */
  predicate Truthy(s: Option<string>)
  {
    s.Some? && s.value != ""
  }

  /** A list-valued document key read with `get(key, [])`. */
  function Listed(o: Option<seq<string>>): seq<string>
  {
    if o.Some? then o.value else []
  }

  /** The two roles a login can hold in a team; "maintainer" is what the
      roster documents call a representative. */
  datatype Role = Member | Maintainer

  /** An external step of the branch bootstrap. `MissingArgument` is a git
      invocation one of whose arguments is `None`: the process is never
      started and the call raises before running anything. */
  datatype Command =
    | Expand(template: string, repoName: string, repoSlug: string, version: string)
    | Git(args: seq<string>)
    | MissingArgument(args: seq<string>)

  datatype Event =
    // calls to the remote platform
    | CreateTeam(name: string, privacy: string)
    | RevokeMembership(team: string, login: string)
    | UpsertMembership(team: string, login: string, role: Role)
    | CreateRepository(name: string, description: string, team: string)
    | AddRepository(team: string, fullName: string, permission: string)
    | AddCollaborator(repo: string, login: string)
    // local effects of a branch bootstrap
    | AcquireWorkspace
    | Run(command: Command)
    | LogError(message: string)
    | RemoveWorkspace
}
