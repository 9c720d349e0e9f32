/** What a release-changelog run guarantees, stated over the reference model
    of the whole run. */
module OrchestratorProperties {
  import opened Types
  import opened ChangelogBuilder
  import opened PullRequests
  import opened Trigger
  import opened Orchestrator

  /** The stages after the trigger wait add no wait calls. */
  lemma LaterStagesAfterTrigger(c: Config, env: Environment)
    requires RequiredParameters(c).None?
    ensures Grows(After(TriggerStage(c, env, Initial(c))), Orchestrate(c, env).state,
                  {ResolveName, ResolveVersion, Lookup, Fetch, Publish})
  {
    var t := TriggerStage(c, env, Initial(c));
    if t.Continue? {
      LaterStagesAfterTag(c, env, t.state);
      GrowsTrans(t.state, After(TagStage(c, env, t.state)), Orchestrate(c, env).state,
                 {ResolveName, ResolveVersion}, {Lookup, Fetch, Publish});
    }
  }

  /** The stages after tag resolution add no wait or resolver calls. */
  lemma LaterStagesAfterTag(c: Config, env: Environment, s: State)
    requires RequiredParameters(c).None?
    requires TriggerStage(c, env, Initial(c)) == Continue(s)
    ensures Grows(After(TagStage(c, env, s)), Orchestrate(c, env).state, {Lookup, Fetch, Publish})
  {
    var g := TagStage(c, env, s);
    if g.Continue? {
      var p := PullRequestStage(c, env, g.state);
      if p.Continue? {
        GrowsTrans(g.state, p.state, Orchestrate(c, env).state, {Lookup},
                   if c.dryRun then {Fetch} else {Fetch, Publish});
      }
    }
  }

  /** The trigger wait happens exactly when the required flags are present
      and both a broker list and a topic are configured. */
  lemma WaitOnlyWhenConfigured(c: Config, env: Environment)
    ensures var r := Orchestrate(c, env);
      (CreateConsumer(env.bootstrapServers) in r.state.calls)
        <==> RequiredParameters(c).None? && TriggerEnabled(env.bootstrapServers, c.kafkaTopic)
    ensures var r := Orchestrate(c, env);
      !TriggerEnabled(env.bootstrapServers, c.kafkaTopic) ==> Never(r.state.calls, Wait)
  {
    var r := Orchestrate(c, env);
    if RequiredParameters(c).None? {
      var t := TriggerStage(c, env, Initial(c));
      var later := {ResolveName, ResolveVersion, Lookup, Fetch, Publish};
      LaterStagesAfterTrigger(c, env);
      if TriggerEnabled(env.bootstrapServers, c.kafkaTopic) {
        assert After(t).calls[0] == CreateConsumer(env.bootstrapServers);
        CallKept(After(t), r.state, later, CreateConsumer(env.bootstrapServers));
      } else {
        assert t == Continue(Initial(c));
        NeverKept(After(t), r.state, later, Wait);
        assert Kind(CreateConsumer(env.bootstrapServers)) == Wait;
      }
    } else {
      assert r.state.calls == [];
    }
  }

  /** The run waits forever exactly when the wait runs and no read on the
      topic is a successful message naming the repository. */
  lemma WaitingIffNoTrigger(c: Config, env: Environment)
    ensures Orchestrate(c, env).exit == Waiting
      <==> && RequiredParameters(c).None?
           && TriggerEnabled(env.bootstrapServers, c.kafkaTopic)
           && env.consumerCreated
           && forall j :: 0 <= j < |env.messages| ==> !IsTrigger(env.messages[j], c.repo)
  {
  }

  /** A given tag is kept and the package registry is never consulted. */
  lemma GivenTagKept(c: Config, env: Environment)
    requires c.tag != ""
    ensures var r := Orchestrate(c, env);
      r.state.tag == c.tag && Never(r.state.calls, ResolveName) && Never(r.state.calls, ResolveVersion)
  {
    if RequiredParameters(c).None? {
      var t := TriggerStage(c, env, Initial(c));
      var r := Orchestrate(c, env);
      var later := {ResolveName, ResolveVersion, Lookup, Fetch, Publish};
      NeverKept(Initial(c), After(t), {Wait}, ResolveName);
      NeverKept(Initial(c), After(t), {Wait}, ResolveVersion);
      if t.Continue? {
        LaterStagesAfterTag(c, env, t.state);
        assert TagStage(c, env, t.state) == Continue(t.state);
        NeverKept(t.state, r.state, {Lookup, Fetch, Publish}, ResolveName);
        NeverKept(t.state, r.state, {Lookup, Fetch, Publish}, ResolveVersion);
      }
    }
  }

  /** Without a given tag, a run that reaches the release step uses the
      latest registry version of the package, behind "v", whatever the
      release step then does. */
  lemma MissingTagResolved(c: Config, env: Environment)
    requires c.tag == ""
    requires Prepare(c, env).Continue?
    ensures env.packageName.Some? && env.latestVersion.Some?
    ensures var r := Orchestrate(c, env);
      && r.state.tag == ReleaseTag(env.latestVersion.value)
      && QueryPackageName(c.owner, c.repo) in r.state.calls
      && GetLatestVersion(c.registry, env.packageName.value) in r.state.calls
  {
    var t := TriggerStage(c, env, Initial(c));
    var g := TagStage(c, env, t.state);
    var r := Orchestrate(c, env);
    LaterStagesAfterTag(c, env, t.state);
    CallKept(g.state, r.state, {Lookup, Fetch, Publish}, QueryPackageName(c.owner, c.repo));
    CallKept(g.state, r.state, {Lookup, Fetch, Publish}, GetLatestVersion(c.registry, env.packageName.value));
  }

  /** The "Need to provide tag" fatal error can never happen: the repository
      is required, so the tag is either given or resolved to a non-empty one. */
  lemma MissingTagUnreachable(c: Config, env: Environment)
    ensures Orchestrate(c, env).exit != Fatal(MissingTag)
  {
  }

  /** A given pull request number is kept and the commit to pull request
      lookup is never made. */
  lemma GivenNumberKept(c: Config, env: Environment)
    requires c.pr != 0
    ensures var r := Orchestrate(c, env);
      r.state.pr == c.pr && Never(r.state.calls, Lookup)
  {
    if RequiredParameters(c).None? {
      var t := TriggerStage(c, env, Initial(c));
      var r := Orchestrate(c, env);
      NeverKept(Initial(c), After(t), {Wait}, Lookup);
      if t.Continue? {
        var g := TagStage(c, env, t.state);
        LaterStagesAfterTag(c, env, t.state);
        NeverKept(t.state, After(g), {ResolveName, ResolveVersion}, Lookup);
        if g.Continue? {
          assert PullRequestStage(c, env, g.state) == Continue(g.state);
          NeverKept(g.state, r.state, if c.dryRun then {Fetch} else {Fetch, Publish}, Lookup);
        }
      }
    }
  }

  /** Without a given number, a run that reaches the release step uses the
      first pull request associated with the commit, whatever the release
      step then does. */
  lemma MissingNumberLookedUp(c: Config, env: Environment)
    requires c.pr == 0
    requires Prepare(c, env).Continue?
    ensures env.associatedPullRequests.Some?
    ensures var r := Orchestrate(c, env);
      && ListPullRequests(c.owner, c.repo, c.commit) in r.state.calls
      && r.state.pr == SelectPullRequest(env.associatedPullRequests.value)
  {
    var t := TriggerStage(c, env, Initial(c));
    var g := TagStage(c, env, t.state);
    var p := PullRequestStage(c, env, g.state);
    CallKept(p.state, Orchestrate(c, env).state, if c.dryRun then {Fetch} else {Fetch, Publish},
             ListPullRequests(c.owner, c.repo, c.commit));
  }

  /** With no positive pull request number nothing is fetched, published or
      reported, and the target branch is left as given. */
  lemma NoReleaseWithoutPullRequest(c: Config, env: Environment)
    requires Orchestrate(c, env).state.pr <= 0
    ensures var r := Orchestrate(c, env);
      && r.exit != Released
      && Never(r.state.calls, Fetch)
      && Never(r.state.calls, Publish)
      && r.state.stdout == ""
      && r.state.targetCommitish == c.targetRef
  {
    var st := Prepare(c, env);
    NeverKept(Initial(c), After(st), {Wait, ResolveName, ResolveVersion, Lookup}, Fetch);
    NeverKept(Initial(c), After(st), {Wait, ResolveName, ResolveVersion, Lookup}, Publish);
  }

  /** The release step, on its own, started from the state preparation
      leaves: a released step fetched the pull request, defaulted the target
      and printed the report. */
  lemma ReleaseStageReport(c: Config, env: Environment, s: State, r: Run)
    requires r == ReleaseStage(c, env, s) && r.exit == Released
    requires s.stdout == "" && s.targetCommitish == c.targetRef
    ensures env.pullRequest.Some?
    ensures var p := env.pullRequest.value;
      && r.state.pr > 0
      && r.state.tag != ""
      && r.state.targetCommitish == DefaultTarget(c.targetRef, p.baseRefName)
      && r.state.stdout == Header(c.owner, c.repo, r.state.targetCommitish, r.state.tag) + "\n" + Changelog(p.commits)
  {
    var s1 := Log(s, QueryPullRequest(c.owner, c.repo, s.pr));
    assert r == ReleasePullRequest(c, env, s1, env.pullRequest.value);
    var report := Header(c.owner, c.repo, r.state.targetCommitish, s.tag) + "\n" + Changelog(env.pullRequest.value.commits);
    assert r.state.stdout == "" + report;
    assert "" + report == report;
  }

  /** Released runs exist: a given tag and number, no trigger, a fetched pull
      request and a successful publish release it on the base branch. */
  lemma ReleasedExample()
    ensures var c := Config("acme", "widget", "https://registry.example", "v1.0.0", "", 7, "master", false, "");
      var env := Environment("", false, [], None, None, None, Some(PullRequest("main", [])), true);
      && Orchestrate(c, env).exit == Released
      && Orchestrate(c, env).state.targetCommitish == "main"
  {
    var c := Config("acme", "widget", "https://registry.example", "v1.0.0", "", 7, "master", false, "");
    var env := Environment("", false, [], None, None, None, Some(PullRequest("main", [])), true);
    var s := Initial(c);
    assert RequiredParameters(c).None?;
    assert TriggerStage(c, env, s) == Continue(s);
    assert TagStage(c, env, s) == Continue(s);
    assert PullRequestStage(c, env, s) == Continue(s);
    assert Prepare(c, env) == Continue(s);
    assert Orchestrate(c, env) == ReleaseStage(c, env, s);
  }

  /** A released run: the target defaults to the pull request's base branch,
      and the report is the header line followed by the changelog. */
  lemma ReleaseReport(c: Config, env: Environment)
    requires Orchestrate(c, env).exit == Released
    ensures env.pullRequest.Some?
    ensures var r := Orchestrate(c, env);
      var p := env.pullRequest.value;
      && r.state.pr > 0
      && r.state.tag != ""
      && r.state.targetCommitish == DefaultTarget(c.targetRef, p.baseRefName)
      && r.state.stdout == Header(c.owner, c.repo, r.state.targetCommitish, r.state.tag) + "\n" + Changelog(p.commits)
  {
    ReleasedAfterPrepare(c, env);
    ReleaseStageReport(c, env, Prepare(c, env).state, Orchestrate(c, env));
  }

  /** A released run went through every preparation stage and then the
      release step, starting from the flags' target and no output. */
  lemma ReleasedAfterPrepare(c: Config, env: Environment)
    requires Orchestrate(c, env).exit == Released
    ensures Prepare(c, env).Continue?
    ensures var s := Prepare(c, env).state;
      && Orchestrate(c, env) == ReleaseStage(c, env, s)
      && s.stdout == "" && s.targetCommitish == c.targetRef && s.tag != ""
  {
  }

  /** A released run publishes, unless in dry-run mode, exactly one record:
      named after its tag, targeting the run's target branch and carrying the
      changelog; the publish is the run's last call. */
  lemma ReleasePublished(c: Config, env: Environment)
    requires Orchestrate(c, env).exit == Released
    ensures env.pullRequest.Some?
    ensures var r := Orchestrate(c, env);
      var release := Release(r.state.tag, r.state.targetCommitish, r.state.tag, Changelog(env.pullRequest.value.commits));
      && (c.dryRun ==> Never(r.state.calls, Publish))
      && (!c.dryRun ==> PublishedOnce(r.state.calls, c.owner, c.repo, release))
  {
    ReleasedAfterPrepare(c, env);
    var st := Prepare(c, env);
    NeverKept(Initial(c), After(st), {Wait, ResolveName, ResolveVersion, Lookup}, Publish);
    ReleaseStagePublished(c, env, st.state, Orchestrate(c, env));
  }

  /** The release step, on its own, started from a log without publish
      calls: a released step publishes its record once, as its last call,
      unless in dry-run mode. */
  lemma ReleaseStagePublished(c: Config, env: Environment, s: State, r: Run)
    requires r == ReleaseStage(c, env, s) && r.exit == Released
    requires Never(s.calls, Publish)
    ensures env.pullRequest.Some?
    ensures var release := Release(r.state.tag, r.state.targetCommitish, r.state.tag, Changelog(env.pullRequest.value.commits));
      && (c.dryRun ==> Never(r.state.calls, Publish))
      && (!c.dryRun ==> PublishedOnce(r.state.calls, c.owner, c.repo, release))
  {
    var s1 := Log(s, QueryPullRequest(c.owner, c.repo, s.pr));
    assert r == ReleasePullRequest(c, env, s1, env.pullRequest.value);
    assert Never(s1.calls, Publish);
    if !c.dryRun {
      assert r.state.calls[..|r.state.calls| - 1] == s1.calls;
    }
  }

  /** The release step, on its own, adds at most one publish call, and none
      in dry-run mode. */
  lemma ReleaseStagePublishesOnce(c: Config, env: Environment, s: State)
    requires Never(s.calls, Publish)
    ensures var r := ReleaseStage(c, env, s);
      Never(r.state.calls, Publish) || exists release :: PublishedOnce(r.state.calls, c.owner, c.repo, release)
    ensures c.dryRun ==> Never(ReleaseStage(c, env, s).state.calls, Publish)
  {
    var r := ReleaseStage(c, env, s);
    if s.pr > 0 && env.pullRequest.Some? {
      var s1 := Log(s, QueryPullRequest(c.owner, c.repo, s.pr));
      var p := env.pullRequest.value;
      assert Never(s1.calls, Publish);
      assert r == ReleasePullRequest(c, env, s1, p);
      if !c.dryRun && s.tag != "" {
        var release := Release(s.tag, DefaultTarget(s.targetCommitish, p.baseRefName), s.tag, Changelog(p.commits));
        assert r.state.calls == s1.calls + [PublishRelease(c.owner, c.repo, release)];
        assert r.state.calls[..|r.state.calls| - 1] == s1.calls;
        assert PublishedOnce(r.state.calls, c.owner, c.repo, release);
      }
    } else if s.pr > 0 {
      assert r.state.calls == s.calls + [QueryPullRequest(c.owner, c.repo, s.pr)];
      assert Never(r.state.calls, Publish);
    }
  }

  /** At most one publish call is made, and none in dry-run mode. */
  lemma PublishAtMostOnce(c: Config, env: Environment)
    ensures var r := Orchestrate(c, env);
      Never(r.state.calls, Publish) || exists release :: PublishedOnce(r.state.calls, c.owner, c.repo, release)
    ensures c.dryRun ==> Never(Orchestrate(c, env).state.calls, Publish)
  {
    var st := Prepare(c, env);
    NeverKept(Initial(c), After(st), {Wait, ResolveName, ResolveVersion, Lookup}, Publish);
    if st.Continue? {
      assert Orchestrate(c, env) == ReleaseStage(c, env, st.state);
      ReleaseStagePublishesOnce(c, env, st.state);
    }
  }

  /** Nothing before the release step depends on the dry-run flag. */
  lemma PrepareIgnoresDryRun(c: Config, env: Environment, dryRun: bool)
    ensures Prepare(c.(dryRun := dryRun), env) == Prepare(c, env)
  {
    var c' := c.(dryRun := dryRun);
    var s0 := Initial(c);
    assert Initial(c') == s0;
    assert TriggerStage(c', env, s0) == TriggerStage(c, env, s0);
    if TriggerStage(c, env, s0).Continue? {
      var s1 := TriggerStage(c, env, s0).state;
      assert TagStage(c', env, s1) == TagStage(c, env, s1);
      if TagStage(c, env, s1).Continue? {
        var s2 := TagStage(c, env, s1).state;
        assert PullRequestStage(c', env, s2) == PullRequestStage(c, env, s2);
      }
    }
  }

  /** A dry run and a real run whose publish succeeds end the same way, with
      the same tag, number, target and printed report; the real run makes
      exactly one more call, the publish of the release record, at the end. */
  lemma DryRunMatchesRealRun(c: Config, env: Environment)
    requires env.publishSucceeds
    ensures var dry := Orchestrate(c.(dryRun := true), env);
      var live := Orchestrate(c.(dryRun := false), env);
      && dry.exit == live.exit
      && dry.state.(calls := []) == live.state.(calls := [])
      && (dry.exit != Released ==> live.state.calls == dry.state.calls)
      && (dry.exit == Released ==>
            && env.pullRequest.Some?
            && var release := Release(dry.state.tag, dry.state.targetCommitish, dry.state.tag,
                                      Changelog(env.pullRequest.value.commits));
               live.state.calls == dry.state.calls + [PublishRelease(c.owner, c.repo, release)])
  {
    var cd, cl := c.(dryRun := true), c.(dryRun := false);
    PrepareIgnoresDryRun(c, env, true);
    PrepareIgnoresDryRun(c, env, false);
    var st := Prepare(c, env);
    if st.Continue? && st.state.pr > 0 && env.pullRequest.Some? {
      var s1 := Log(st.state, QueryPullRequest(c.owner, c.repo, st.state.pr));
      assert Orchestrate(cd, env) == ReleasePullRequest(cd, env, s1, env.pullRequest.value);
      assert Orchestrate(cl, env) == ReleasePullRequest(cl, env, s1, env.pullRequest.value);
    }
  }
}
