/** The decision flow of a release-changelog run, as a reference model: which
    stages run, which external calls they make, and which tag, pull request
    number, target branch, release record and report result. External calls
    are answered by an Environment; a fatal log line becomes Exit.Fatal. */
module Orchestrator {
  import opened Types
  import opened ChangelogBuilder
  import opened PullRequests
  import opened Trigger

  /** The command-line flags. tag, targetRef and pr are only the initial
      values of the variables the run updates. */
  datatype Config = Config(
    owner: string,
    repo: string,
    registry: string,
    tag: string,
    targetRef: string,
    pr: int,
    commit: string,
    dryRun: bool,
    kafkaTopic: string)

  /** The answers of the outside world. None (or false) means that call
      returned an error. bootstrapServers is the broker list from the
      environment; messages are the reads on the trigger topic, in order. */
  datatype Environment = Environment(
    bootstrapServers: string,
    consumerCreated: bool,
    messages: seq<ReadResult>,
    packageName: Option<string>,
    latestVersion: Option<string>,
    associatedPullRequests: Option<seq<PullRequestRef>>,
    pullRequest: Option<PullRequest>,
    publishSucceeds: bool)

  /** An external call, with the arguments it was made with. */
  datatype Call =
    | CreateConsumer(bootstrapServers: string)
    | ReadMessages(topic: string, count: nat)
    | QueryPackageName(owner: string, repo: string)
    | GetLatestVersion(registry: string, packageName: string)
    | ListPullRequests(owner: string, repo: string, commit: string)
    | QueryPullRequest(owner: string, repo: string, number: int)
    | PublishRelease(owner: string, repo: string, release: Release)

  datatype CallKind = Wait | ResolveName | ResolveVersion | Lookup | Fetch | Publish

  function Kind(call: Call): CallKind {
    match call
    case CreateConsumer(_) => Wait
    case ReadMessages(_, _) => Wait
    case QueryPackageName(_, _) => ResolveName
    case GetLatestVersion(_, _) => ResolveVersion
    case ListPullRequests(_, _, _) => Lookup
    case QueryPullRequest(_, _, _) => Fetch
    case PublishRelease(_, _, _) => Publish
  }

  /** No call of the given kind appears in the log. */
  predicate Never(calls: seq<Call>, kind: CallKind) {
    forall i :: 0 <= i < |calls| ==> Kind(calls[i]) != kind
  }

  /** The log holds exactly one publish call, its last, and it publishes
      this record. */
  predicate PublishedOnce(calls: seq<Call>, owner: string, repo: string, release: Release) {
    && |calls| > 0
    && calls[|calls| - 1] == PublishRelease(owner, repo, release)
    && Never(calls[..|calls| - 1], Publish)
  }

  /** The variables a run updates, the calls it has made and what it printed. */
  datatype State = State(tag: string, targetCommitish: string, pr: int, calls: seq<Call>, stdout: string)

  /** How a run ends: a fatal error, the release made (exit status 0), main
      returning because there is no pull request to release, or waiting on
      the trigger topic for a message that never arrives. */
  datatype Exit = Fatal(error: Error) | Released | NothingToRelease | Waiting

  datatype Run = Run(exit: Exit, state: State)

  /** The outcome of one stage: go on with the next, or stop here. */
  datatype Step = Continue(state: State) | Halt(run: Run)

  /** The state a stage leaves behind, whether or not the run goes on. */
  function After(st: Step): State {
    match st
    case Continue(s) => s
    case Halt(r) => r.state
  }

  /** s2 keeps the call log of s as its prefix and adds only calls of the
      given kinds. */
  predicate Grows(s: State, s2: State, kinds: set<CallKind>) {
    && |s.calls| <= |s2.calls|
    && s2.calls[..|s.calls|] == s.calls
    && forall i :: |s.calls| <= i < |s2.calls| ==> Kind(s2.calls[i]) in kinds
  }

  function Initial(c: Config): State {
    State(c.tag, c.targetRef, c.pr, [], "")
  }

  function Log(s: State, call: Call): State {
    s.(calls := s.calls + [call])
  }

  /** The tag made from a registry version: the version verbatim behind "v". */
  function ReleaseTag(version: string): (tag: string)
    ensures |tag| == |version| + 1 && tag[0] == 'v' && tag[1..] == version
  {
    "v" + version
  }

  /** The line printed before the changelog. */
  function Header(owner: string, repo: string, target: string, tag: string): string {
    owner + "/" + repo + " - " + target + ":" + tag
  }

  /** The header reads "<owner>/<repo> - <target>:<tag>": owner first, then a
      slash and the repository, and the tag last, behind a colon. */
  lemma HeaderLayout(owner: string, repo: string, target: string, tag: string)
    ensures var h := Header(owner, repo, target, tag);
      && |h| == |owner| + |repo| + |target| + |tag| + 5
      && h[..|owner|] == owner && h[|owner|] == '/'
      && h[|owner| + 1..|owner| + 1 + |repo|] == repo
      && h[|h| - |tag| - 1] == ':' && h[|h| - |tag|..] == tag
      && h[|owner| + 1 + |repo|..|h| - |tag| - 1] == " - " + target
  {
    var h := Header(owner, repo, target, tag);
    var front := owner + "/" + repo;
    assert h == front + (" - " + target + ":" + tag);
    assert h[..|front|] == front;
    assert front[..|owner|] == owner;
    assert h == (owner + "/" + repo + " - " + target) + (":" + tag);
    assert h == front + (" - " + target) + (":" + tag);
  }

  /** The first missing required flag, checked in the order repo, owner,
      registry. */
  function RequiredParameters(c: Config): (missing: Option<Error>)
    ensures missing.None? <==> |c.repo| > 0 && |c.owner| > 0 && |c.registry| > 0
    ensures missing.Some? ==> missing.value.MissingParameter?
  {
    if |c.repo| == 0 then Some(MissingParameter("repo"))
    else if |c.owner| == 0 then Some(MissingParameter("owner"))
    else if |c.registry| == 0 then Some(MissingParameter("registry"))
    else None
  }

  /** Waits for a message naming the repository, when a broker list and a
      topic are configured. */
  function TriggerStage(c: Config, env: Environment, s: State): (st: Step)
    ensures Grows(s, After(st), {Wait})
    ensures After(st).(calls := s.calls) == s
    ensures !TriggerEnabled(env.bootstrapServers, c.kafkaTopic) ==> st == Continue(s)
    ensures TriggerEnabled(env.bootstrapServers, c.kafkaTopic) ==>
              |After(st).calls| > |s.calls| && After(st).calls[|s.calls|] == CreateConsumer(env.bootstrapServers)
    ensures st.Halt? ==> st.run.exit == Waiting || st.run.exit == Fatal(ConsumerFailed)
    ensures st.Halt? && st.run.exit == Waiting <==>
              && TriggerEnabled(env.bootstrapServers, c.kafkaTopic)
              && env.consumerCreated
              && forall j :: 0 <= j < |env.messages| ==> !IsTrigger(env.messages[j], c.repo)
    ensures TriggerEnabled(env.bootstrapServers, c.kafkaTopic) ==>
              ((st.Halt? && st.run.exit == Fatal(ConsumerFailed)) <==> !env.consumerCreated)
    ensures TriggerEnabled(env.bootstrapServers, c.kafkaTopic) && env.consumerCreated
            && FirstMatch(env.messages, c.repo).Some? ==>
              st == Continue(s.(calls := s.calls + [CreateConsumer(env.bootstrapServers),
                                                    ReadMessages(c.kafkaTopic, FirstMatch(env.messages, c.repo).value + 1)]))
    ensures TriggerEnabled(env.bootstrapServers, c.kafkaTopic) && !env.consumerCreated ==>
              st == Halt(Run(Fatal(ConsumerFailed), Log(s, CreateConsumer(env.bootstrapServers))))
    ensures TriggerEnabled(env.bootstrapServers, c.kafkaTopic) && env.consumerCreated
            && FirstMatch(env.messages, c.repo).None? ==>
              st == Halt(Run(Waiting, s.(calls := s.calls + [CreateConsumer(env.bootstrapServers),
                                                             ReadMessages(c.kafkaTopic, |env.messages|)])))
  {
    FirstMatchSpec(env.messages, c.repo);
    if !TriggerEnabled(env.bootstrapServers, c.kafkaTopic) then Continue(s)
    else
      var s1 := Log(s, CreateConsumer(env.bootstrapServers));
      if !env.consumerCreated then Halt(Run(Fatal(ConsumerFailed), s1))
      else match FirstMatch(env.messages, c.repo)
        case None => Halt(Run(Waiting, Log(s1, ReadMessages(c.kafkaTopic, |env.messages|))))
        case Some(k) => Continue(Log(s1, ReadMessages(c.kafkaTopic, k + 1)))
  }

  /** Resolves the tag from the package's latest registry version when no
      tag was given. */
  function TagStage(c: Config, env: Environment, s: State): (st: Step)
    ensures Grows(s, After(st), {ResolveName, ResolveVersion})
    ensures After(st).(calls := s.calls, tag := s.tag) == s
    ensures !(s.tag == "" && |c.repo| != 0) ==> st == Continue(s)
    ensures s.tag == "" && |c.repo| != 0 ==>
              && (st.Continue? <==> env.packageName.Some? && env.latestVersion.Some?)
              && (st.Continue? ==> && st.state.tag == ReleaseTag(env.latestVersion.value)
                                   && QueryPackageName(c.owner, c.repo) in st.state.calls
                                   && GetLatestVersion(c.registry, env.packageName.value) in st.state.calls)
    ensures st.Continue? && |c.repo| != 0 ==> st.state.tag != ""
    ensures st.Halt? ==> st.run.exit == Fatal(PackageNameFailed) || st.run.exit == Fatal(RegistryFailed)
    ensures s.tag == "" && |c.repo| != 0 && env.packageName.None? ==>
              st == Halt(Run(Fatal(PackageNameFailed), Log(s, QueryPackageName(c.owner, c.repo))))
    ensures s.tag == "" && |c.repo| != 0 && env.packageName.Some? ==>
              var resolved := s.(calls := s.calls + [QueryPackageName(c.owner, c.repo),
                                                     GetLatestVersion(c.registry, env.packageName.value)]);
              && (env.latestVersion.None? ==> st == Halt(Run(Fatal(RegistryFailed), resolved)))
              && (env.latestVersion.Some? ==> st == Continue(resolved.(tag := ReleaseTag(env.latestVersion.value))))
  {
    if !(|s.tag| == 0 && |c.repo| != 0) then Continue(s)
    else
      var s1 := Log(s, QueryPackageName(c.owner, c.repo));
      match env.packageName
      case None => Halt(Run(Fatal(PackageNameFailed), s1))
      case Some(name) =>
        var s2 := Log(s1, GetLatestVersion(c.registry, name));
        match env.latestVersion
        case None => Halt(Run(Fatal(RegistryFailed), s2))
        case Some(version) => Continue(s2.(tag := ReleaseTag(version)))
  }

  /** Looks up the pull request of the commit when no number was given. */
  function PullRequestStage(c: Config, env: Environment, s: State): (st: Step)
    ensures Grows(s, After(st), {Lookup})
    ensures After(st).(calls := s.calls, pr := s.pr) == s
    ensures !(s.pr == 0 && |c.repo| != 0) ==> st == Continue(s)
    ensures s.pr == 0 && |c.repo| != 0 ==>
              && ListPullRequests(c.owner, c.repo, c.commit) in After(st).calls
              && (st.Continue? <==> env.associatedPullRequests.Some?)
              && (st.Continue? ==> st.state.pr == SelectPullRequest(env.associatedPullRequests.value))
    ensures st.Halt? ==> st.run.exit == Fatal(PullRequestLookupFailed)
    ensures s.pr == 0 && |c.repo| != 0 ==>
              var looked := Log(s, ListPullRequests(c.owner, c.repo, c.commit));
              && (env.associatedPullRequests.None? ==> st == Halt(Run(Fatal(PullRequestLookupFailed), looked)))
              && (env.associatedPullRequests.Some? ==>
                    st == Continue(looked.(pr := SelectPullRequest(env.associatedPullRequests.value))))
  {
    if !(s.pr == 0 && |c.repo| != 0) then Continue(s)
    else
      var s1 := Log(s, ListPullRequests(c.owner, c.repo, c.commit));
      match env.associatedPullRequests
      case None => Halt(Run(Fatal(PullRequestLookupFailed), s1))
      case Some(prs) => Continue(s1.(pr := SelectPullRequest(prs)))
  }

  /** Fetches the pull request of a positive number and releases it; with
      no positive number there is nothing to release. */
  function ReleaseStage(c: Config, env: Environment, s: State): (r: Run)
    ensures Grows(s, r.state, if c.dryRun then {Fetch} else {Fetch, Publish})
    ensures r.state.tag == s.tag && r.state.pr == s.pr
    ensures s.pr <= 0 ==> r == Run(NothingToRelease, s)
    ensures r.exit != Released ==> r.state.stdout == s.stdout
    ensures r.exit == Released ==> s.pr > 0 && env.pullRequest.Some? && s.tag != ""
    ensures s.pr > 0 && env.pullRequest.Some? ==>
              r == ReleasePullRequest(c, env, Log(s, QueryPullRequest(c.owner, c.repo, s.pr)), env.pullRequest.value)
    ensures s.pr > 0 && env.pullRequest.None? ==>
              r == Run(Fatal(PullRequestQueryFailed), Log(s, QueryPullRequest(c.owner, c.repo, s.pr)))
    ensures r.exit == Released || r.exit == NothingToRelease || r.exit.Fatal?
    ensures r.exit == Fatal(MissingTag) ==> s.tag == ""
  {
    if s.pr <= 0 then Run(NothingToRelease, s)
    else
      var s1 := Log(s, QueryPullRequest(c.owner, c.repo, s.pr));
      match env.pullRequest
      case None => Run(Fatal(PullRequestQueryFailed), s1)
      case Some(p) => ReleasePullRequest(c, env, s1, p)
  }

  /** The target of the release: the given one, or else the base branch of
      the pull request. */
  function DefaultTarget(given: string, baseRefName: string): (target: string)
    ensures given != "" ==> target == given
    ensures given == "" ==> target == baseRefName
  {
    if given == "" then baseRefName else given
  }

  /** Builds the changelog and the release record of a fetched pull request,
      publishes the record unless in dry-run mode, and reports it. */
  function ReleasePullRequest(c: Config, env: Environment, s: State, p: PullRequest): (r: Run)
    ensures r.state.tag == s.tag && r.state.pr == s.pr
    ensures r.exit == Released || r.exit == Fatal(MissingTag) || r.exit == Fatal(PublishFailed)
    ensures r.exit == Fatal(MissingTag) <==> s.tag == ""
    ensures r.exit == Fatal(PublishFailed) <==> s.tag != "" && !c.dryRun && !env.publishSucceeds
    ensures r.exit != Released ==> r.state.stdout == s.stdout
    ensures var target := DefaultTarget(s.targetCommitish, p.baseRefName);
      var release := Release(s.tag, target, s.tag, Changelog(p.commits));
      && r.state.calls == s.calls + (if c.dryRun || s.tag == "" then [] else [PublishRelease(c.owner, c.repo, release)])
      && (r.exit == Released ==>
            && r.state.targetCommitish == target
            && r.state.stdout == s.stdout + Header(c.owner, c.repo, target, s.tag) + "\n" + release.body)
  {
    var body := Changelog(p.commits);
    if s.tag == "" then Run(Fatal(MissingTag), s)
    else
      var target := DefaultTarget(s.targetCommitish, p.baseRefName);
      var s1 := s.(targetCommitish := target);
      var release := Release(s1.tag, target, s1.tag, body);
      var s2 := if c.dryRun then s1 else Log(s1, PublishRelease(c.owner, c.repo, release));
      if !c.dryRun && !env.publishSucceeds then Run(Fatal(PublishFailed), s2)
      else Run(Released, s2.(stdout := s2.stdout + Header(c.owner, c.repo, target, s1.tag) + "\n" + body))
  }

  // Call logs only grow.

  /** A kind absent from a log stays absent when the log grows by other kinds. */
  lemma NeverKept(s: State, s2: State, kinds: set<CallKind>, kind: CallKind)
    requires Grows(s, s2, kinds) && Never(s.calls, kind) && kind !in kinds
    ensures Never(s2.calls, kind)
  {
    forall i | 0 <= i < |s2.calls| ensures Kind(s2.calls[i]) != kind {
      if i < |s.calls| {
        assert s2.calls[i] == s2.calls[..|s.calls|][i];
      }
    }
  }

  /** Growing twice is growing by both sets of kinds. */
  lemma GrowsTrans(s1: State, s2: State, s3: State, k1: set<CallKind>, k2: set<CallKind>)
    requires Grows(s1, s2, k1) && Grows(s2, s3, k2)
    ensures Grows(s1, s3, k1 + k2)
  {
    assert s3.calls[..|s1.calls|] == s3.calls[..|s2.calls|][..|s1.calls|];
    forall i | |s1.calls| <= i < |s3.calls| ensures Kind(s3.calls[i]) in k1 + k2 {
      if i < |s2.calls| {
        assert s3.calls[i] == s3.calls[..|s2.calls|][i];
      }
    }
  }

  /** A call made stays in the log. */
  lemma CallKept(s: State, s2: State, kinds: set<CallKind>, call: Call)
    requires Grows(s, s2, kinds) && call in s.calls
    ensures call in s2.calls
  {
    var i :| 0 <= i < |s.calls| && s.calls[i] == call;
    assert s2.calls[..|s.calls|][i] == call;
  }

  /** Everything before the release step: the required-flag checks, the
      trigger wait, tag resolution and the pull request lookup, each able to
      stop the run. Nothing is fetched, published or printed here, and the
      target branch keeps its given value. */
  function Prepare(c: Config, env: Environment): (st: Step)
    ensures Grows(Initial(c), After(st), {Wait, ResolveName, ResolveVersion, Lookup})
    ensures After(st).targetCommitish == c.targetRef && After(st).stdout == ""
    ensures st.Continue? ==> st.state.tag != ""
    ensures st.Halt? ==> st.run.exit.Fatal? || st.run.exit == Waiting
  {
    var s0 := Initial(c);
    match RequiredParameters(c)
    case Some(e) => Halt(Run(Fatal(e), s0))
    case None =>
      match TriggerStage(c, env, s0)
      case Halt(r) => Halt(r)
      case Continue(s1) =>
        var g := TagStage(c, env, s1);
        GrowsTrans(s0, s1, After(g), {Wait}, {ResolveName, ResolveVersion});
        match g
        case Halt(r) => Halt(r)
        case Continue(s2) =>
          var p := PullRequestStage(c, env, s2);
          GrowsTrans(s0, s2, After(p), {Wait, ResolveName, ResolveVersion}, {Lookup});
          p
  }

  /** A whole run: preparation, then the release step. */
  function Orchestrate(c: Config, env: Environment): (r: Run)
    ensures r.exit == Waiting ==> TriggerEnabled(env.bootstrapServers, c.kafkaTopic) && env.consumerCreated
    ensures r.exit != Fatal(MissingTag)
    ensures r.exit.Released? ==> r.state.pr > 0 && r.state.tag != ""
    ensures !r.exit.Released? ==> r.state.stdout == ""
  {
    match Prepare(c, env)
    case Halt(r) => r
    case Continue(s) => ReleaseStage(c, env, s)
  }
}
