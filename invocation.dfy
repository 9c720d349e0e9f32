/** The program's main function as an object: the flags it was started with,
    the package variables it updates in place (tag, pr, targetCommitish), and
    a record of the calls it made and of what it printed. Each stage method is
    proved to do what the matching stage of the reference model does. */
module ReleaseChangelog {
  import opened Types
  import opened ChangelogBuilder
  import opened PullRequests
  import opened Trigger
  import opened Orchestrator

  class Invocation {
    const config: Config
    var tag: string
    var targetCommitish: string
    var pr: int
    var calls: seq<Call>
    var stdout: string

    function Snapshot(): State
      reads this
    {
      State(tag, targetCommitish, pr, calls, stdout)
    }

    /** The object after a stage method agrees with what the stage of the
        reference model yields. */
    ghost predicate Follows(st: Step, halt: Option<Exit>)
      reads this
    {
      match st
      case Continue(s) => halt == None && Snapshot() == s
      case Halt(r) => halt == Some(r.exit) && Snapshot() == r.state
    }

    /** The variables start out with the values of the flags. */
    constructor (config: Config)
      ensures this.config == config
      ensures Snapshot() == Initial(config)
    {
      this.config := config;
      tag, targetCommitish, pr := config.tag, config.targetRef, config.pr;
      calls, stdout := [], "";
    }

    /** One run of the main function, from the required-flag checks to the report. */
    method Execute(env: Environment) returns (exit: Exit)
      requires Snapshot() == Initial(config)
      modifies this
      ensures Run(exit, Snapshot()) == Orchestrate(config, env)
    {
      if |config.repo| == 0 {
        return Fatal(MissingParameter("repo"));
      }
      if |config.owner| == 0 {
        return Fatal(MissingParameter("owner"));
      }
      if |config.registry| == 0 {
        return Fatal(MissingParameter("registry"));
      }
      var halt := WaitForTrigger(env);
      if halt.Some? {
        return halt.value;
      }
      halt := ResolveTag(env);
      if halt.Some? {
        return halt.value;
      }
      halt := LookupPullRequest(env);
      if halt.Some? {
        return halt.value;
      }
      assert Prepare(config, env) == Continue(Snapshot());
      exit := ReleaseStep(env);
    }

    /** Waits for a message naming the repository when a broker list and a
        topic are configured. */
    method WaitForTrigger(env: Environment) returns (halt: Option<Exit>)
      modifies this
      ensures Follows(TriggerStage(config, env, old(Snapshot())), halt)
    {
      halt := None;
      if |env.bootstrapServers| > 0 && |config.kafkaTopic| > 0 {
        calls := calls + [CreateConsumer(env.bootstrapServers)];
        if !env.consumerCreated {
          return Some(Fatal(ConsumerFailed));
        }
        var consumed, matched := WaitForRepoMessage(env.messages, config.repo);
        calls := calls + [ReadMessages(config.kafkaTopic, consumed)];
        if !matched {
          halt := Some(Waiting);
        }
      }
    }

    /** Sets the tag from the package's latest registry version when no tag
        was given. */
    method ResolveTag(env: Environment) returns (halt: Option<Exit>)
      modifies this
      ensures Follows(TagStage(config, env, old(Snapshot())), halt)
    {
      halt := None;
      if |tag| == 0 && |config.repo| != 0 {
        calls := calls + [QueryPackageName(config.owner, config.repo)];
        if env.packageName.None? {
          return Some(Fatal(PackageNameFailed));
        }
        calls := calls + [GetLatestVersion(config.registry, env.packageName.value)];
        if env.latestVersion.None? {
          return Some(Fatal(RegistryFailed));
        }
        tag := "v" + env.latestVersion.value;
      }
    }

    /** Sets the pull request number from the commit when none was given. */
    method LookupPullRequest(env: Environment) returns (halt: Option<Exit>)
      modifies this
      ensures Follows(PullRequestStage(config, env, old(Snapshot())), halt)
    {
      halt := None;
      if pr == 0 && |config.repo| != 0 {
        calls := calls + [ListPullRequests(config.owner, config.repo, config.commit)];
        if env.associatedPullRequests.None? {
          return Some(Fatal(PullRequestLookupFailed));
        }
        pr := SelectPullRequest(env.associatedPullRequests.value);
      }
    }

    /** Fetches the pull request, builds its changelog and release record,
        publishes the record unless in dry-run mode, and prints the report. */
    method ReleaseStep(env: Environment) returns (exit: Exit)
      modifies this
      ensures Run(exit, Snapshot()) == ReleaseStage(config, env, old(Snapshot()))
    {
      if pr <= 0 {
        return NothingToRelease;
      }
      calls := calls + [QueryPullRequest(config.owner, config.repo, pr)];
      if env.pullRequest.None? {
        return Fatal(PullRequestQueryFailed);
      }
      var pull := env.pullRequest.value;
      var output := BuildChangelog(pull.commits);
      if tag == "" {
        return Fatal(MissingTag);
      }
      if targetCommitish == "" {
        targetCommitish := pull.baseRefName;
      }
      var release := Release(tag, targetCommitish, tag, output);
      if !config.dryRun {
        calls := calls + [PublishRelease(config.owner, config.repo, release)];
        if !env.publishSucceeds {
          return Fatal(PublishFailed);
        }
      }
      stdout := stdout + Header(config.owner, config.repo, targetCommitish, tag) + "\n" + output;
      exit := Released;
    }
  }
}
