/** The branch bootstrap of generate.py (`create_branch`): in a scratch
    workspace, expand the repository template, make one commit under the
    authenticated user's identity, create the branch and push it with the
    token embedded in the push URL, and remove the workspace on every exit
    path. Each command is an effect that succeeds or raises. */
module Bootstrap {
  import opened Events

  /** The authenticated user's profile as the remote reports it. */
  datatype Profile = Profile(login: string, name: Option<string>, email: Option<string>)

  /** One entry of the user's e-mail list. */
  datatype EmailEntry = EmailEntry(address: string, primary: bool)

  /** Everything the bootstrap reads besides the repository and the branch:
      the token, the organization and the template address (globals of the
      script), the user's profile and e-mail list (remote replies), and, per
      repository and branch bootstrapped, the commands that fail when run
      there (the outcome of each external step; see `FailingAt`). */
  datatype Env = Env(token: string, org: string, template: string,
                     profile: Profile, emails: seq<EmailEntry>,
                     failing: map<(string, string), set<Command>>)

  /** What a failed step raises: the template engine's error, a non-zero
      exit of git (`CalledProcessError`), or the type error of an argument
      that is `None`. */
  datatype Failure =
    | TemplateFailed(command: Command)
    | ProcessFailed(command: Command)
    | ArgumentRejected(command: Command)

  datatype Outcome = Done | Failed(failure: Failure)

  /** The effects of one call, in order, and how it ended. */
  datatype Bootstrapped = Bootstrapped(effects: seq<Event>, outcome: Outcome)

  const FailureMessage := "Something failed when the new repo was being created"

  // ---------------------------------------------------------------------
  // Commit identity and push address
  // ---------------------------------------------------------------------

  /** The commit author name: the profile name when it is set and not empty,
      the login otherwise. */
  function CommitName(profile: Profile): (name: string)
    ensures Truthy(profile.name) ==> name == profile.name.value
    ensures !Truthy(profile.name) ==> name == profile.login
  {
    if Truthy(profile.name) then profile.name.value else profile.login
  }

  /** The address of the first e-mail entry marked primary, if there is one. */
  function FirstPrimary(emails: seq<EmailEntry>): (r: Option<string>)
    ensures r.None? <==> forall i :: 0 <= i < |emails| ==> !emails[i].primary
    ensures r.Some? ==>
              exists i :: 0 <= i < |emails| && emails[i].primary && r.value == emails[i].address
                            && forall j :: 0 <= j < i ==> !emails[j].primary
  {
    if emails == [] then None
    else if emails[0].primary then Some(emails[0].address)
    else
      var r := FirstPrimary(emails[1..]);
      assert r.Some? ==> exists i :: 1 <= i < |emails| && emails[i].primary && r.value == emails[i].address
                                     && forall j :: 0 <= j < i ==> !emails[j].primary;
      r
  }

  /** The scan of the e-mail list: stop at the first entry marked primary. */
  method PrimaryEmail(emails: seq<EmailEntry>) returns (email: Option<string>)
    ensures email == FirstPrimary(emails)
  {
    email := None;
    var i := 0;
    while i < |emails|
      invariant 0 <= i <= |emails|
      invariant FirstPrimary(emails) == FirstPrimary(emails[i..])
    {
      if emails[i].primary {
        email := Some(emails[i].address);
        return;
      }
      assert emails[i..][1..] == emails[i + 1..];
      i := i + 1;
    }
  }

  /** The commit e-mail: the profile e-mail when it is set and not empty,
      otherwise the first primary address; with no primary address it stays
      what the profile held (`None` or empty). */
  function CommitEmail(profile: Profile, emails: seq<EmailEntry>): (email: Option<string>)
    ensures Truthy(profile.email) ==> email == profile.email
    ensures !Truthy(profile.email) && FirstPrimary(emails).Some? ==> email == FirstPrimary(emails)
    ensures !Truthy(profile.email) && FirstPrimary(emails).None? ==> email == profile.email
  {
    if Truthy(profile.email) then profile.email
    else if FirstPrimary(emails).Some? then FirstPrimary(emails)
    else profile.email
  }

  /** The authenticated push address of a repository of the organization. */
  function PushUrl(token: string, org: string, repo: string): string
  {
    "https://" + token + "@github.com/" + org + "/" + repo
  }

  /** The user-info part of an https address: what lies between the scheme
      and the first '@'. */
  function UserInfo(url: string): Option<string>
  {
    if |url| < 8 || url[..8] != "https://" then None else UpTo('@', url[8..])
  }

  /** The part of `s` before the first `c`, if `s` holds a `c`. */
  function UpTo(c: char, s: string): Option<string>
  {
    if s == [] then None
    else if s[0] == c then Some([])
    else
      var rest := UpTo(c, s[1..]);
      if rest.Some? then Some([s[0]] + rest.value) else None
  }

  lemma {:induction false} UpToPrefix(c: char, prefix: string, suffix: string)
    requires c !in prefix
    ensures UpTo(c, prefix + [c] + suffix) == Some(prefix)
  {
    var whole := prefix + [c] + suffix;
    if prefix == [] {
      assert whole[0] == c;
    } else {
      UpToPrefix(c, prefix[1..], suffix);
      assert whole[0] == prefix[0] && prefix[0] != c;
      assert whole[1..] == prefix[1..] + [c] + suffix;
      assert [prefix[0]] + prefix[1..] == prefix;
    }
  }

  /** The push address authenticates with exactly the token (when the token
      holds no '@') and addresses exactly the repository on github.com. */
  lemma PushUrlCarriesToken(token: string, org: string, repo: string)
    requires '@' !in token
    ensures UserInfo(PushUrl(token, org, repo)) == Some(token)
    ensures var url := PushUrl(token, org, repo);
              var path := "@github.com/" + org + "/" + repo;
              |url| == 8 + |token| + |path| && url[8 + |token|..] == path
  {
    var url := PushUrl(token, org, repo);
    var rest := "github.com/" + org + "/" + repo;
    assert url == "https://" + (token + ['@'] + rest);
    assert url[8..] == token + ['@'] + rest;
    UpToPrefix('@', token, rest);
  }

  // ---------------------------------------------------------------------
  // The step sequence
  // ---------------------------------------------------------------------

  /** The `git config user.email` step; with no e-mail the argument is `None`. */
  function ConfigEmail(email: Option<string>): Command
  {
    if email.Some? then Git(["git", "config", "user.email", email.value])
    else MissingArgument(["git", "config", "user.email"])
  }

  /** The external steps of the bootstrap, in the order the script runs them. */
  function Planned(env: Env, repo: string, version: string, url: string): seq<Command>
  {
    [ Expand(env.template, repo, repo, version),
      Git(["git", "init"]),
      Git(["git", "config", "user.name", CommitName(env.profile)]),
      ConfigEmail(CommitEmail(env.profile, env.emails)),
      Git(["git", "add", "-A"]),
      Git(["git", "commit", "-m", "Initial commit"]),
      Git(["git", "checkout", "-b", version]),
      Git(["git", "remote", "add", "origin", url]),
      Git(["git", "remote", "set-url", "--push", "origin", PushUrl(env.token, env.org, repo)]),
      Git(["git", "push", "origin", "HEAD"]) ]
  }

  /** What running one step raises, if anything. */
  function Raised(failing: set<Command>, command: Command): Option<Failure>
  {
    match command
    case MissingArgument(_) => Some(ArgumentRejected(command))
    case Expand(_, _, _, _) => if command in failing then Some(TemplateFailed(command)) else None
    case Git(_) => if command in failing then Some(ProcessFailed(command)) else None
  }

  /** The record a step leaves: a command whose argument is `None` is never started. */
  function Started(command: Command): seq<Event>
  {
    if command.MissingArgument? then [] else [Run(command)]
  }

  function StartedAll(commands: seq<Command>): seq<Event>
  {
    if commands == [] then []
    else StartedAll(commands[..|commands| - 1]) + Started(commands[|commands| - 1])
  }

  /** The steps run so far and what the last of them raised. */
  datatype Progress = Progress(runs: seq<Event>, raised: Option<Failure>)

  /** Run the steps in order; the first one that raises ends the sequence. */
  function RunAll(failing: set<Command>, commands: seq<Command>): Progress
  {
    if commands == [] then Progress([], None)
    else
      var p := RunAll(failing, commands[..|commands| - 1]);
      if p.raised.Some? then p
      else
        var command := commands[|commands| - 1];
        Progress(p.runs + Started(command), Raised(failing, command))
  }

  /** The commands that fail when run in the bootstrap of branch `version`
      of repository `repo`; none when the environment names none. */
  function FailingAt(env: Env, repo: string, version: string): set<Command>
  {
    if (repo, version) in env.failing then env.failing[(repo, version)] else {}
  }

  /** The whole call: acquire the workspace, run the steps, log a git failure
      and re-raise it, and remove the workspace in every case. */
  function BranchEffects(env: Env, repo: string, version: string, url: string): Bootstrapped
  {
    Finally(RunAll(FailingAt(env, repo, version), Planned(env, repo, version, url)))
  }

  /** The `except` and `finally` clauses around the steps that ran. */
  function Finally(p: Progress): Bootstrapped
  {
    var log := if p.raised.Some? && p.raised.value.ProcessFailed? then [LogError(FailureMessage)] else [];
    Bootstrapped([AcquireWorkspace] + p.runs + log + [RemoveWorkspace],
                 if p.raised.Some? then Failed(p.raised.value) else Done)
  }

  /** `check_call`: run one more step unless an earlier one has raised. */
  method CheckCall(failing: set<Command>, command: Command, ghost before: seq<Command>, p: Progress)
    returns (q: Progress)
    requires p == RunAll(failing, before)
    ensures q == RunAll(failing, before + [command])
  {
    assert (before + [command])[..|before|] == before;
    if p.raised.Some? {
      q := p;
    } else {
      q := Progress(p.runs + Started(command), Raised(failing, command));
    }
  }

  /** `create_branch(repo, version)`, with the repository's address `url`. */
  method CreateBranch(env: Env, repo: string, version: string, url: string)
    returns (effects: seq<Event>, outcome: Outcome)
    ensures Bootstrapped(effects, outcome) == BranchEffects(env, repo, version, url)
  {
    var p := RunSteps(env, repo, version, url);
    effects := [AcquireWorkspace] + p.runs;
    outcome := Done;
    if p.raised.Some? {
      if p.raised.value.ProcessFailed? {
        effects := effects + [LogError(FailureMessage)];
      }
      outcome := Failed(p.raised.value);
    }
    effects := effects + [RemoveWorkspace];
  }

  /** The commit e-mail as the script resolves it: the profile's, or else the
      first primary address of the user's e-mail list. */
  method ResolveEmail(profile: Profile, emails: seq<EmailEntry>) returns (email: Option<string>)
    ensures email == CommitEmail(profile, emails)
  {
    email := profile.email;
    if !Truthy(email) {
      var primary := PrimaryEmail(emails);
      if primary.Some? {
        email := primary;
      }
    }
  }

  /** The body of the `try`: the template expansion and the nine `check_call`
      steps, in order. */
  method RunSteps(env: Env, repo: string, version: string, url: string) returns (p: Progress)
    ensures p == RunAll(FailingAt(env, repo, version), Planned(env, repo, version, url))
  {
    p := Progress([], None);
    ghost var done: seq<Command> := [];
    var command := Expand(env.template, repo, repo, version);
    p := CheckCall(FailingAt(env, repo, version), command, done, p);
    done := done + [command];
    command := Git(["git", "init"]);
    p := CheckCall(FailingAt(env, repo, version), command, done, p);
    done := done + [command];
    command := Git(["git", "config", "user.name", CommitName(env.profile)]);
    p := CheckCall(FailingAt(env, repo, version), command, done, p);
    done := done + [command];
    var email := ResolveEmail(env.profile, env.emails);
    command := ConfigEmail(email);
    p := CheckCall(FailingAt(env, repo, version), command, done, p);
    done := done + [command];
    command := Git(["git", "add", "-A"]);
    p := CheckCall(FailingAt(env, repo, version), command, done, p);
    done := done + [command];
    command := Git(["git", "commit", "-m", "Initial commit"]);
    p := CheckCall(FailingAt(env, repo, version), command, done, p);
    done := done + [command];
    command := Git(["git", "checkout", "-b", version]);
    p := CheckCall(FailingAt(env, repo, version), command, done, p);
    done := done + [command];
    command := Git(["git", "remote", "add", "origin", url]);
    p := CheckCall(FailingAt(env, repo, version), command, done, p);
    done := done + [command];
    command := Git(["git", "remote", "set-url", "--push", "origin", PushUrl(env.token, env.org, repo)]);
    p := CheckCall(FailingAt(env, repo, version), command, done, p);
    done := done + [command];
    command := Git(["git", "push", "origin", "HEAD"]);
    p := CheckCall(FailingAt(env, repo, version), command, done, p);
    done := done + [command];
    StepsArePlanned(env, repo, version, url, done);
  }

  /** The steps `create_branch` runs, one `check_call` after another, are the
      planned ones. */
  lemma StepsArePlanned(env: Env, repo: string, version: string, url: string, done: seq<Command>)
    requires done == [] + [Expand(env.template, repo, repo, version)]
      + [Git(["git", "init"])]
      + [Git(["git", "config", "user.name", CommitName(env.profile)])]
      + [ConfigEmail(CommitEmail(env.profile, env.emails))]
      + [Git(["git", "add", "-A"])]
      + [Git(["git", "commit", "-m", "Initial commit"])]
      + [Git(["git", "checkout", "-b", version])]
      + [Git(["git", "remote", "add", "origin", url])]
      + [Git(["git", "remote", "set-url", "--push", "origin", PushUrl(env.token, env.org, repo)])]
      + [Git(["git", "push", "origin", "HEAD"])]
    ensures done == Planned(env, repo, version, url)
  {
  }

  // ---------------------------------------------------------------------
  // What the bootstrap guarantees
  // ---------------------------------------------------------------------

  lemma {:induction false} StartedAllAreRuns(commands: seq<Command>)
    ensures forall e :: e in StartedAll(commands) ==> e.Run? && e.command in commands
  {
    if commands != [] {
      var prefix := commands[..|commands| - 1];
      StartedAllAreRuns(prefix);
      assert forall c :: c in prefix ==> c in commands;
    }
  }

  /** No step of `commands` raises. */
  ghost predicate Clean(failing: set<Command>, commands: seq<Command>)
  {
    forall i :: 0 <= i < |commands| ==> Raised(failing, commands[i]).None?
  }

  /** The steps all run, in order, exactly when none of them raises. */
  lemma {:induction false} RunAllClean(failing: set<Command>, commands: seq<Command>)
    ensures RunAll(failing, commands).raised.None? <==> Clean(failing, commands)
    ensures Clean(failing, commands) ==> RunAll(failing, commands).runs == StartedAll(commands)
  {
    if commands != [] {
      var n := |commands| - 1;
      var prefix := commands[..n];
      RunAllClean(failing, prefix);
      assert forall i :: 0 <= i < n ==> prefix[i] == commands[i];
      if Clean(failing, commands) {
        assert Clean(failing, prefix);
      }
    }
  }

  /** Step `k` is the first that raises in `commands`: the steps before it
      ran in order, it ran and raised, and nothing after it ran. */
  ghost predicate StoppedAt(failing: set<Command>, commands: seq<Command>, k: int)
  {
    && 0 <= k < |commands|
    && Clean(failing, commands[..k])
    && Raised(failing, commands[k]).Some?
    && RunAll(failing, commands) == Progress(StartedAll(commands[..k + 1]), Raised(failing, commands[k]))
  }

  /** When a step raises, the run stopped at the first step that can raise. */
  lemma {:induction false} RunAllStopsAtFirstRaise(failing: set<Command>, commands: seq<Command>)
    ensures RunAll(failing, commands).raised.Some? ==> exists k :: StoppedAt(failing, commands, k)
  {
    if commands != [] {
      var prefix := commands[..|commands| - 1];
      if RunAll(failing, prefix).raised.Some? {
        RunAllStopsAtFirstRaise(failing, prefix);
        var k :| StoppedAt(failing, prefix, k);
        StopCarried(failing, commands, k);
      } else if RunAll(failing, commands).raised.Some? {
        StopAtLast(failing, commands);
      }
    }
  }

  lemma StopCarried(failing: set<Command>, commands: seq<Command>, k: int)
    requires commands != [] && StoppedAt(failing, commands[..|commands| - 1], k)
    ensures StoppedAt(failing, commands, k)
  {
    var prefix := commands[..|commands| - 1];
    assert prefix[..k] == commands[..k] && prefix[..k + 1] == commands[..k + 1];
  }

  lemma StopAtLast(failing: set<Command>, commands: seq<Command>)
    requires commands != []
    requires RunAll(failing, commands[..|commands| - 1]).raised.None?
    requires RunAll(failing, commands).raised.Some?
    ensures StoppedAt(failing, commands, |commands| - 1)
  {
    var n := |commands| - 1;
    RunAllClean(failing, commands[..n]);
    assert commands[..n + 1] == commands;
  }

  lemma {:induction false} RunsAreRuns(failing: set<Command>, commands: seq<Command>)
    ensures forall e :: e in RunAll(failing, commands).runs ==> e.Run? && e.command in commands
  {
    if commands != [] {
      var prefix := commands[..|commands| - 1];
      RunsAreRuns(failing, prefix);
      assert forall c :: c in prefix ==> c in commands;
    }
  }

  lemma {:induction false} RunAllStartsWithFirst(failing: set<Command>, commands: seq<Command>)
    requires commands != []
    ensures |RunAll(failing, commands).runs| >= |Started(commands[0])|
    ensures RunAll(failing, commands).runs[..|Started(commands[0])|] == Started(commands[0])
  {
    var n := |commands| - 1;
    if n > 0 {
      var prefix := commands[..n];
      RunAllStartsWithFirst(failing, prefix);
    } else {
      assert commands[..n] == [];
    }
  }

  /** The workspace is acquired first and removed last, exactly once each, on
      every exit path. */
  lemma WorkspaceAlwaysRemoved(env: Env, repo: string, version: string, url: string)
    ensures var effects := BranchEffects(env, repo, version, url).effects;
      && effects[0] == AcquireWorkspace
      && effects[|effects| - 1] == RemoveWorkspace
      && multiset(effects)[AcquireWorkspace] == 1
      && multiset(effects)[RemoveWorkspace] == 1
  {
    var commands := Planned(env, repo, version, url);
    var p := RunAll(FailingAt(env, repo, version), commands);
    RunsAreRuns(FailingAt(env, repo, version), commands);
    assert AcquireWorkspace !in p.runs && RemoveWorkspace !in p.runs;
  }

  /** A bootstrap makes no call to the remote platform: its effects are the
      workspace, the planned steps that ran, and the failure log. */
  lemma BootstrapEffectsAreLocal(env: Env, repo: string, version: string, url: string)
    ensures forall e :: e in BranchEffects(env, repo, version, url).effects ==>
              || e == AcquireWorkspace
              || e == RemoveWorkspace
              || e == LogError(FailureMessage)
              || (e.Run? && e.command in Planned(env, repo, version, url))
  {
    RunsAreRuns(FailingAt(env, repo, version), Planned(env, repo, version, url));
  }

  /** A failing git command is logged and re-raised; no other failure is
      logged; the call ends `Done` exactly when no step raises, and a failure
      is what the first raising step raised, after which nothing ran. */
  lemma FailuresAreReraised(env: Env, repo: string, version: string, url: string)
    ensures var b := BranchEffects(env, repo, version, url);
            var commands := Planned(env, repo, version, url);
      && (b.outcome == Done <==> Clean(FailingAt(env, repo, version), commands))
      && (LogError(FailureMessage) in b.effects <==> b.outcome.Failed? && b.outcome.failure.ProcessFailed?)
      && (b.outcome.Failed? ==>
            exists k :: StoppedAt(FailingAt(env, repo, version), commands, k)
                        && Raised(FailingAt(env, repo, version), commands[k]) == Some(b.outcome.failure)
                        && b.effects[1..|b.effects| - 1]
                           == StartedAll(commands[..k + 1]) + (if b.outcome.failure.ProcessFailed? then [LogError(FailureMessage)] else []))
  {
    var commands := Planned(env, repo, version, url);
    var failing := FailingAt(env, repo, version);
    RunAllClean(failing, commands);
    RunAllStopsAtFirstRaise(failing, commands);
    RunsAreRuns(failing, commands);
    var p := RunAll(failing, commands);
    assert LogError(FailureMessage) !in p.runs;
    var b := BranchEffects(env, repo, version, url);
    var log := if p.raised.Some? && p.raised.value.ProcessFailed? then [LogError(FailureMessage)] else [];
    assert b.effects[1..|b.effects| - 1] == p.runs + log;
  }

  /** On success every step ran, once, in the fixed order, starting with the
      template expansion and ending with the push, and the commit e-mail was
      known. */
  lemma SuccessRunsEveryStep(env: Env, repo: string, version: string, url: string)
    ensures var b := BranchEffects(env, repo, version, url);
            var commands := Planned(env, repo, version, url);
      b.outcome == Done ==>
        && CommitEmail(env.profile, env.emails).Some?
        && b.effects == [AcquireWorkspace] + seq(|commands|, i requires 0 <= i < |commands| => Run(commands[i])) + [RemoveWorkspace]
  {
    var commands := Planned(env, repo, version, url);
    RunAllClean(FailingAt(env, repo, version), commands);
    if Clean(FailingAt(env, repo, version), commands) {
      assert Raised(FailingAt(env, repo, version), commands[3]).None?;
      NoneRaisedStartsAll(FailingAt(env, repo, version), commands);
    }
  }

  lemma {:induction false} NoneRaisedStartsAll(failing: set<Command>, commands: seq<Command>)
    requires Clean(failing, commands)
    ensures StartedAll(commands) == seq(|commands|, i requires 0 <= i < |commands| => Run(commands[i]))
  {
    if commands != [] {
      var n := |commands| - 1;
      assert Clean(failing, commands[..n]);
      NoneRaisedStartsAll(failing, commands[..n]);
      assert Raised(failing, commands[n]).None?;
    }
  }

  /** The template expansion of the requested repository and branch is the
      first effect after acquiring the workspace, whatever happens next; no
      other expansion is run. */
  lemma ExpansionRunsFirst(env: Env, repo: string, version: string, url: string)
    ensures var effects := BranchEffects(env, repo, version, url).effects;
      |effects| > 1 && effects[1] == Run(Expand(env.template, repo, repo, version))
    ensures forall t, n, s, v :: Run(Expand(t, n, s, v)) in BranchEffects(env, repo, version, url).effects ==>
              t == env.template && n == repo && s == repo && v == version
  {
    var commands := Planned(env, repo, version, url);
    RunAllStartsWithFirst(FailingAt(env, repo, version), commands);
    RunsAreRuns(FailingAt(env, repo, version), commands);
    var p := RunAll(FailingAt(env, repo, version), commands);
    assert p.runs[..1] == [Run(commands[0])];
    assert ([AcquireWorkspace] + p.runs)[1] == p.runs[0];
  }
}
