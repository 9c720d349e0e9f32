/** Changelog assembly: every commit of the pull request becomes one line
    "* <headline> @<login>" followed by a newline, in the order given. */
module ChangelogBuilder {
  import opened Types

  /** The text of a commit's changelog line, without its newline. */
  function Entry(c: Commit): string {
    "* " + c.headline + " @" + c.login
  }

  /** A commit's changelog line, newline included. */
  function Line(c: Commit): string {
    Entry(c) + "\n"
  }

  /** The changelog of a commit list: the lines of its commits, one after the
      other. This is the reference the accumulating loop is proved against. */
  function Changelog(commits: seq<Commit>): string {
    if commits == [] then "" else Line(commits[0]) + Changelog(commits[1..])
  }

  /** Folds the commit list into the changelog text, appending one line per
      commit, as the release step does before publishing. */
  method BuildChangelog(commits: seq<Commit>) returns (output: string)
    ensures output == Changelog(commits)
    ensures |output| == Width(commits)
  {
    output := "";
    var i := 0;
    while i < |commits|
      invariant 0 <= i <= |commits|
      invariant output == Changelog(commits[..i])
    {
      ChangelogAppend(commits[..i], [commits[i]]);
      assert commits[..i] + [commits[i]] == commits[..i + 1];
      output := output + Line(commits[i]);
      i := i + 1;
    }
    assert commits[..i] == commits;
    ChangelogLength(commits);
  }

  /** The changelog of a concatenation is the concatenation of the changelogs:
      lines are emitted in input order and never reordered. */
  lemma {:induction false} ChangelogAppend(a: seq<Commit>, b: seq<Commit>)
    ensures Changelog(a + b) == Changelog(a) + Changelog(b)
  {
    if a == [] {
      assert a + b == b;
    } else {
      assert (a + b)[1..] == a[1..] + b;
      ChangelogAppend(a[1..], b);
    }
  }

  /** The line of commit i sits between the changelog of the commits before
      it and the changelog of the commits after it. */
  lemma {:induction false} ChangelogAt(commits: seq<Commit>, i: nat)
    requires i < |commits|
    ensures Changelog(commits) == Changelog(commits[..i]) + Line(commits[i]) + Changelog(commits[i + 1..])
  {
    var before, after := commits[..i], commits[i + 1..];
    var tail := [commits[i]] + after;
    assert commits == before + tail;
    ChangelogAppend(before, tail);
    assert tail[0] == commits[i] && tail[1..] == after;
    assert Changelog(tail) == Line(commits[i]) + Changelog(after);
  }

  /** The length of the changelog: five fixed characters per commit ("* ",
      " @" and the newline) plus its headline and login. */
  function Width(commits: seq<Commit>): nat {
    if commits == [] then 0
    else 5 + |commits[0].headline| + |commits[0].login| + Width(commits[1..])
  }

  lemma {:induction false} ChangelogLength(commits: seq<Commit>)
    ensures |Changelog(commits)| == Width(commits)
  {
    if commits != [] {
      ChangelogLength(commits[1..]);
    }
  }

  // Reading the changelog back as lines.

  predicate NoNewline(s: string) {
    forall j :: 0 <= j < |s| ==> s[j] != '\n'
  }

  /** The index of the first newline of s, or |s| if it has none. */
  function LineEnd(s: string): (k: nat)
    ensures k <= |s|
    ensures NoNewline(s[..k])
    ensures k < |s| ==> s[k] == '\n'
  {
    if s == [] || s[0] == '\n' then 0
    else
      var k := 1 + LineEnd(s[1..]);
      assert s[..k] == [s[0]] + s[1..][..k - 1];
      k
  }

  /** Cuts a text into its newline-terminated lines, dropping the newlines;
      an unterminated last piece is a line of its own. */
  function SplitLines(s: string): seq<string>
    decreases |s|
  {
    if s == [] then []
    else
      var k := LineEnd(s);
      if k == |s| then [s] else [s[..k]] + SplitLines(s[k + 1..])
  }

  lemma LineEndAfterText(x: string, rest: string)
    requires NoNewline(x)
    ensures LineEnd(x + "\n" + rest) == |x|
  {
    var s := x + "\n" + rest;
    assert forall j :: 0 <= j < |x| ==> s[j] == x[j];
    assert s[|x|] == '\n';
  }

  lemma SplitLinesCons(x: string, rest: string)
    requires NoNewline(x)
    ensures SplitLines(x + "\n" + rest) == [x] + SplitLines(rest)
  {
    var s := x + "\n" + rest;
    LineEndAfterText(x, rest);
    assert s[..|x|] == x;
    assert s[|x| + 1..] == rest;
  }

  /** The entries of a commit list, one per commit, in order. */
  function Entries(commits: seq<Commit>): (r: seq<string>)
    ensures |r| == |commits|
    ensures forall i :: 0 <= i < |commits| ==> r[i] == Entry(commits[i])
  {
    seq(|commits|, i requires 0 <= i < |commits| => Entry(commits[i]))
  }

  lemma NoNewlineConcat(a: string, b: string)
    requires NoNewline(a) && NoNewline(b)
    ensures NoNewline(a + b)
  {
    forall j | 0 <= j < |a + b| ensures (a + b)[j] != '\n' {
      if j >= |a| {
        assert (a + b)[j] == b[j - |a|];
      }
    }
  }

  lemma EntryNoNewline(c: Commit)
    requires NoNewline(c.headline) && NoNewline(c.login)
    ensures NoNewline(Entry(c))
  {
    NoNewlineConcat("* ", c.headline);
    NoNewlineConcat("* " + c.headline, " @");
    NoNewlineConcat("* " + c.headline + " @", c.login);
  }

  lemma ChangelogCons(commits: seq<Commit>)
    requires commits != []
    ensures Changelog(commits) == Entry(commits[0]) + "\n" + Changelog(commits[1..])
  {
  }

  lemma EntriesCons(commits: seq<Commit>)
    requires commits != []
    ensures Entries(commits) == [Entry(commits[0])] + Entries(commits[1..])
  {
    assert Entries(commits)[0] == Entry(commits[0]);
    assert forall i :: 0 <= i < |commits| - 1 ==> Entries(commits)[i + 1] == Entries(commits[1..])[i];
  }

  /** When no headline or login contains a newline, the changelog consists of
      exactly one line per commit, in input order, each line being that
      commit's entry. */
  lemma {:induction false} ChangelogLines(commits: seq<Commit>)
    requires forall c :: c in commits ==> NoNewline(c.headline) && NoNewline(c.login)
    ensures SplitLines(Changelog(commits)) == Entries(commits)
  {
    if commits != [] {
      var c, rest := commits[0], commits[1..];
      assert c in commits;
      EntryNoNewline(c);
      ChangelogCons(commits);
      SplitLinesCons(Entry(c), Changelog(rest));
      assert forall d :: d in rest ==> d in commits;
      ChangelogLines(rest);
      EntriesCons(commits);
    }
  }

  /** Two commits give two lines, in input order. */
  lemma TwoCommitExample()
    ensures Changelog([Commit("fix bug", "alice"), Commit("add test", "bob")])
         == "* fix bug @alice\n* add test @bob\n"
  {
    var cs := [Commit("fix bug", "alice"), Commit("add test", "bob")];
    assert cs[1..] == [Commit("add test", "bob")];
    assert cs[1..][1..] == [];
  }
}
