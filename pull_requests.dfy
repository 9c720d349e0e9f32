/** Choosing the pull request to release from the hosting service's list of
    pull requests associated with a commit. */
module PullRequests {
  import opened Types

  /** First wins: the number of the first listed pull request, or 0 when the
      commit has no associated pull request. */
  function SelectPullRequest(prs: seq<PullRequestRef>): (number: int)
    ensures prs == [] ==> number == 0
    ensures prs != [] ==> number == prs[0].number
  {
    if |prs| > 0 then prs[0].number else 0
  }

  /** Pull requests listed after the first are never looked at, however many
      there are. */
  lemma FirstWins(first: PullRequestRef, others: seq<PullRequestRef>)
    ensures SelectPullRequest([first] + others) == first.number
  {
  }

  /** A selected number other than 0 comes from the list itself. */
  lemma SelectedIsListed(prs: seq<PullRequestRef>)
    requires SelectPullRequest(prs) != 0
    ensures PullRequestRef(SelectPullRequest(prs)) in prs
  {
  }
}
