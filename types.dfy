/** The records that release-changelog reads from the hosting service and the
    registry, the release record it writes, and the errors that end a run. */
module Types {

  datatype Option<+T> = None | Some(value: T)

  /** One commit of a pull request, as far as the changelog needs it: the
      first line of its message and the login of its author. A commit whose
      author has no user account decodes to the empty login. */
  datatype Commit = Commit(headline: string, login: string)

  /** The part of a pull request the release step reads: the pull request's
      base branch and its commits in the order the hosting service lists them. */
  datatype PullRequest = PullRequest(baseRefName: string, commits: seq<Commit>)

  /** One element of the "pull requests associated with a commit" listing. */
  datatype PullRequestRef = PullRequestRef(number: int)

  /** The release record sent to the hosting service. */
  datatype Release = Release(tagName: string, targetCommitish: string, name: string, body: string)

  /** The result of one blocking read on the trigger topic. */
  datatype ReadResult = Message(value: string) | ReadFailed

  /** Why a run stopped with a fatal log message. */
  datatype Error =
    | MissingParameter(parameter: string)
    | ConsumerFailed
    | PackageNameFailed
    | RegistryFailed
    | PullRequestLookupFailed
    | PullRequestQueryFailed
    | MissingTag
    | PublishFailed
}
