# release-changelog, modelled in Dafny

release-changelog is a single-shot command-line tool that cuts a release of a
GitHub repository. It optionally blocks on a Kafka topic until a message names
the repository, resolves the release tag as `"v"` plus the latest npm registry
version of the repository's package (unless a tag was given), finds the pull
request associated with a commit (unless a number was given), turns that pull
request's commits into a changelog of `* <headline> @<login>` lines, publishes
a release record (tag, target branch, name, body) unless in dry-run mode, and
prints `<owner>/<repo> - <target>:<tag>` followed by the changelog.

This project models the deterministic core of `main` and of the helpers it
relies on. Every network or broker call is replaced by an answer taken from an
`Environment` value, and every `log.Fatal` by an `Exit.Fatal(error)` result.

- `types.dfy` (`Types`): commits, pull requests, release records, trigger
  reads and the fatal errors.
- `changelog.dfy` (`ChangelogBuilder`): the changelog as a function, the
  accumulating loop proved against it, and the laws of its shape: concatenation,
  length, and reading it back as one line per commit.
- `pull_requests.dfy` (`PullRequests`): the first-wins choice of a pull request.
- `trigger.dfy` (`Trigger`): substring containment as Go's `strings.Contains`
  defines it, the first matching read, and the blocking read loop as a scan
  over a finite sequence of reads.
- `orchestrator.dfy` (`Orchestrator`): the reference model of a run. Each stage
  is a function of the flags, the environment and the state (tag, pull request
  number, target branch, call log and printed report). Each stage's contract
  says when it runs, what it changes, and the exact calls each branch logs,
  so a failed call is always the last one a stage makes.
- `orchestrator_properties.dfy` (`OrchestratorProperties`): end-to-end
  properties of a run. They cover which stages run, tag and number
  resolution, the unreachable missing-tag error, the release record, publishing
  at most once, and dry-run equivalence.
- `invocation.dfy` (`ReleaseChangelog`): `main` in its imperative form. A class
  holds the package variables `tag`, `pr` and `targetCommitish`, which its
  methods update in place stage by stage. Each method is proved equal to the
  matching stage of the reference model, and the whole run to `Orchestrate`.

## Model

| member | source | states |
|---|---|---|
| ChangelogBuilder.BuildChangelog | release-changelog.go:216-219 | the loop that appends one line per commit yields exactly the changelog of the commit list, of length `Width(commits)` |
| ChangelogBuilder.ChangelogAppend | release-changelog.go:217-218 | the changelog of `a + b` is the changelog of `a` followed by that of `b`: order preserved, nothing sorted |
| ChangelogBuilder.ChangelogAt | release-changelog.go:216-219 | the line of commit i, `"* " + headline + " @" + login + "\n"`, sits between the changelogs of the commits before and after it |
| ChangelogBuilder.ChangelogLength | release-changelog.go:218 | the changelog has five fixed characters per commit plus each headline and login |
| ChangelogBuilder.ChangelogLines | release-changelog.go:216-219 | when headlines and logins hold no newline, splitting the changelog at newlines gives back exactly one entry per commit, in input order; an empty list gives `""` |
| ChangelogBuilder.TwoCommitExample | release-changelog.go:218 | two commits (fix bug by alice, add test by bob) give `"* fix bug @alice\n* add test @bob\n"` |
| PullRequests.SelectPullRequest | release-changelog.go:367-371 | 0 for an empty list, otherwise the number of the first listed pull request |
| PullRequests.FirstWins | release-changelog.go:367-369 | pull requests after the first never influence the choice, however many there are |
| PullRequests.SelectedIsListed | release-changelog.go:367-369 | a non-zero selected number is one of the listed pull requests |
| Trigger.ContainsIff | release-changelog.go:262 | containment holds exactly when the repository name occurs at some index of the payload |
| Trigger.FirstMatchSpec | release-changelog.go:259-268 | the first match is the least index of a successful read whose payload contains the repository name; none exactly when no read qualifies |
| Trigger.WaitForRepoMessage | release-changelog.go:259-268 | the loop skips failed and non-matching reads and stops right after the first match; without one it consumes every read and reports no match |
| Orchestrator.ReleaseTag | release-changelog.go:198 | the tag is `v` followed by the version verbatim, one character longer than it |
| Orchestrator.RequiredParameters | release-changelog.go:163-176 | the run may proceed exactly when repo, owner and registry are all non-empty; otherwise a missing-parameter error |
| Orchestrator.TriggerStage | release-changelog.go:181-186 | the wait runs only with a broker list and a topic and changes nothing but the call log. Each branch's log is exact: a failed consumer creation is the last call and is fatal; with no trigger the run blocks after reading every message; after the first trigger it goes on, having logged the consumer and the reads up to that one |
| Orchestrator.TagStage | release-changelog.go:188-200 | a non-empty tag is kept without any resolver call. An empty one is resolved with exactly one package-name query and then exactly one registry query: a failed name query is the last call and ends the run with the name error; a failed registry query ends it with the registry error; otherwise the tag becomes `"v" + version` |
| Orchestrator.PullRequestStage | release-changelog.go:203-208 | a non-zero number is kept without a lookup. A 0 makes exactly one lookup call, which either ends the run with the lookup error or sets the number to the first-wins selection |
| Orchestrator.ReleaseStage | release-changelog.go:210-214 | a number of at most 0 ends the run with nothing fetched or printed; otherwise the pull request is fetched and released |
| Orchestrator.ReleasePullRequest | release-changelog.go:216-239 | missing tag is fatal; the target defaults to the base branch; the record has name and tag equal and the changelog as body; publish is logged only outside dry-run; the report is header plus changelog |
| Orchestrator.DefaultTarget | release-changelog.go:225-227 | the target is the given one when non-empty, else the pull request's base branch |
| Orchestrator.HeaderLayout | release-changelog.go:238 | the printed header is `<owner>/<repo> - <target>:<tag>`: owner first, a slash and the repository next, then `" - "` and the target, the tag last behind a colon, five separator characters in all |
| Orchestrator.Orchestrate | release-changelog.go:160-242 | a run waits forever only when the trigger is configured and its consumer was created; it never ends with the missing-tag error; a released run has a positive number and a non-empty tag; a run that does not release prints nothing |
| Orchestrator.Prepare | release-changelog.go:163-208 | before the release step no fetch, publish or print happens, the target keeps its given value, and a run that goes on has a non-empty tag |
| OrchestratorProperties.WaitOnlyWhenConfigured | release-changelog.go:181-186 | the consumer is created exactly when the required flags are present and both broker list and topic are non-empty |
| OrchestratorProperties.WaitingIffNoTrigger | release-changelog.go:259-268 | the run blocks forever exactly when the wait runs and no read is a successful message naming the repository |
| OrchestratorProperties.GivenTagKept | release-changelog.go:188 | a given tag is kept and neither the package name nor the registry is ever queried |
| OrchestratorProperties.MissingTagResolved | release-changelog.go:188-199 | without a given tag, every run that reaches the release step (whatever that step then does) carries `"v" + latest version`, after querying the package name and the registry |
| OrchestratorProperties.MissingTagUnreachable | release-changelog.go:221-222 | the "Need to provide tag" fatal error never happens |
| OrchestratorProperties.GivenNumberKept | release-changelog.go:203 | a non-zero given number is kept and the commit lookup is never made |
| OrchestratorProperties.MissingNumberLookedUp | release-changelog.go:203-208 | without a number, every run that reaches the release step (whatever that step then does) looked the commit up and uses the first associated pull request |
| OrchestratorProperties.NoReleaseWithoutPullRequest | release-changelog.go:210-242 | with a final number of at most 0 there is no release, no fetch, no publish, no report, and the target is unchanged |
| OrchestratorProperties.ReleasedExample | release-changelog.go:210-241 | a run with a given tag and number, no trigger, a fetched pull request and a successful publish ends released, targeting the pull request's base branch |
| OrchestratorProperties.ReleaseReport | release-changelog.go:225-239 | a released run has a positive number, a non-empty tag, the defaulted target, and prints the header line followed by the changelog |
| OrchestratorProperties.ReleasePublished | release-changelog.go:229-236 | a released run publishes nothing in dry-run mode, and otherwise exactly one record, as its last call: tag and name equal to the tag, the run's target, the changelog as body |
| OrchestratorProperties.PublishAtMostOnce | release-changelog.go:231-236 | every run makes at most one publish call, and none in dry-run mode |
| OrchestratorProperties.PrepareIgnoresDryRun | release-changelog.go:181-208 | nothing before the release step depends on the dry-run flag |
| OrchestratorProperties.DryRunMatchesRealRun | release-changelog.go:231-239 | a dry run and a successful real run end alike with the same tag, number, target and report; the real run adds only the publish call at the end |
| ReleaseChangelog.Invocation.constructor | release-changelog.go:148-158 | tag, target and number start with the flag values; no call made, nothing printed |
| ReleaseChangelog.Invocation.Execute | release-changelog.go:160-242 | the imperative run, mutating tag, pr and targetCommitish in place, ends exactly as `Orchestrate` says |
| ReleaseChangelog.Invocation.WaitForTrigger | release-changelog.go:181-186 | the in-place trigger stage agrees with `TriggerStage` |
| ReleaseChangelog.Invocation.ResolveTag | release-changelog.go:188-200 | the in-place tag stage agrees with `TagStage` |
| ReleaseChangelog.Invocation.LookupPullRequest | release-changelog.go:203-208 | the in-place lookup agrees with `PullRequestStage` |
| ReleaseChangelog.Invocation.ReleaseStep | release-changelog.go:210-241 | the in-place release step, with its changelog loop, agrees with `ReleaseStage` |

## Left out

- Network calls are not modelled: the GraphQL queries, the REST lookup and publish, and the npm registry GET. Their JSON encoding and decoding is left out too. Each answer is a field of `Environment`, where `None` or `false` stands for an error. The package-name and registry answers do not depend on the arguments passed; the call log records those arguments.
- The package name the registry is asked about comes from `package.json` on `master`. Only its presence or absence is modelled, not the parsing.
- TLS settings (certificate checks are disabled), request headers and the bearer token are transport details with no decision logic.
- Kafka details are left out: the consumer configuration (group id, offset reset), subscribe, unsubscribe and close. A subscribe error is ignored by the code. The trigger stage's three printed lines are not modelled: "Subscribed to …", the `%q`-quoted message and "… has been published". The model's `stdout` is the release report alone, so "prints nothing" and the exact output stated in `ReleaseReport` are about the report.
- The read loop blocks without limit. The model takes a finite sequence of reads. Running off its end is the `Waiting` exit, standing for a wait that never ends.
- Flag parsing, the usage text and environment lookups are left out. The flags are the `Config` value and the broker list is a field of `Environment`.
- The text of fatal log messages and the process exit status are not modelled. A fatal error is an `Exit.Fatal` value; `Released` and `NothingToRelease` both stand for exit status 0.
- `Exists` is a filesystem probe that nothing calls.
- The query asks the server for at most 50 commits. That cap is applied by the server, so the model takes whatever commit list it receives.
- The commit lookup reads the package-level `commit`, not its misspelled parameter `commmit`. They always hold the same value, so the model uses `Config.commit`.
- Strings are modelled as sequences of Unicode characters, while Go strings are byte strings. `len`, `strings.Contains` and the conversion of the Kafka payload with `string(msg.Value)` all work on bytes. Lengths in the model, such as `Width`, are therefore counted in characters and equal Go's byte lengths only for ASCII text. A payload that is not valid UTF-8 cannot be represented. The emptiness checks are unaffected, and containment agrees for valid UTF-8.
- Go's `int` is 32 or 64 bits wide, depending on the platform. Pull request numbers are only compared and copied, so the model uses unbounded `int`.
- ChangelogBuilder.ChangelogLines: the one-line-per-commit reading holds only when no headline or login contains a newline. A headline is a commit's first message line, so this holds for GitHub data, but the code itself does not check it. The concatenation, position and length laws hold without this condition.
