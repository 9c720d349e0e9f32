/** The trigger wait: read messages from the topic until one names the
    repository. */
module Trigger {
  import opened Types

  /** The wait runs only when a broker list and a topic are both configured. */
  predicate TriggerEnabled(bootstrapServers: string, topic: string) {
    |bootstrapServers| > 0 && |topic| > 0
  }

  /** sub occurs in s starting at index i. */
  predicate OccursAt(s: string, sub: string, i: nat) {
    i + |sub| <= |s| && s[i..i + |sub|] == sub
  }

  /** Substring containment; the empty string is contained in every string. */
  function Contains(s: string, sub: string): bool
    decreases |s|
  {
    if |sub| > |s| then false
    else if s[..|sub|] == sub then true
    else Contains(s[1..], sub)
  }

  /** Contains holds exactly when sub occurs at some index of s. */
  lemma {:induction false} ContainsIff(s: string, sub: string)
    ensures Contains(s, sub) <==> exists i: nat :: OccursAt(s, sub, i)
  {
    if |sub| > |s| {
    } else if s[..|sub|] == sub {
      assert OccursAt(s, sub, 0);
    } else {
      ContainsIff(s[1..], sub);
      if Contains(s[1..], sub) {
        var i: nat :| OccursAt(s[1..], sub, i);
        assert s[i + 1..i + 1 + |sub|] == s[1..][i..i + |sub|];
        assert OccursAt(s, sub, i + 1);
      } else {
        forall i: nat | OccursAt(s, sub, i) ensures false {
          assert i != 0;
          assert s[1..][i - 1..i - 1 + |sub|] == s[i..i + |sub|];
          assert OccursAt(s[1..], sub, i - 1);
        }
      }
    }
  }

  /** A read counts as the trigger when it succeeded and its payload names
      the repository. Failed reads never count. */
  predicate IsTrigger(r: ReadResult, repo: string) {
    r.Message? && Contains(r.value, repo)
  }

  /** The index of the first read that counts as the trigger, if any. */
  function FirstMatch(messages: seq<ReadResult>, repo: string): Option<nat> {
    if messages == [] then None
    else if IsTrigger(messages[0], repo) then Some(0)
    else match FirstMatch(messages[1..], repo)
      case None => None
      case Some(k) => Some(k + 1)
  }

  /** FirstMatch finds the least index whose read is the trigger, and finds
      nothing exactly when no read is. */
  lemma {:induction false} FirstMatchSpec(messages: seq<ReadResult>, repo: string)
    ensures FirstMatch(messages, repo).Some? ==>
              var k := FirstMatch(messages, repo).value;
              k < |messages| && IsTrigger(messages[k], repo) &&
              forall j :: 0 <= j < k ==> !IsTrigger(messages[j], repo)
    ensures FirstMatch(messages, repo).None? ==>
              forall j :: 0 <= j < |messages| ==> !IsTrigger(messages[j], repo)
  {
    if messages != [] && !IsTrigger(messages[0], repo) {
      FirstMatchSpec(messages[1..], repo);
      assert forall j :: 1 <= j < |messages| ==> messages[j] == messages[1..][j - 1];
    }
  }

  /** Reads messages one at a time until one counts as the trigger. Returns
      how many messages were consumed and whether the trigger was seen; when
      it was not, every message was consumed (the wait would go on forever). */
  method WaitForRepoMessage(messages: seq<ReadResult>, repo: string) returns (consumed: nat, matched: bool)
    ensures consumed <= |messages|
    ensures matched ==> 0 < consumed && IsTrigger(messages[consumed - 1], repo)
    ensures !matched ==> consumed == |messages|
    ensures forall j :: 0 <= j < consumed - 1 ==> !IsTrigger(messages[j], repo)
    ensures !matched ==> forall j :: 0 <= j < |messages| ==> !IsTrigger(messages[j], repo)
    ensures matched <==> FirstMatch(messages, repo).Some?
    ensures matched ==> consumed == FirstMatch(messages, repo).value + 1
  {
    consumed, matched := 0, false;
    while consumed < |messages|
      invariant consumed <= |messages|
      invariant forall j :: 0 <= j < consumed ==> !IsTrigger(messages[j], repo)
    {
      var r := messages[consumed];
      consumed := consumed + 1;
      if r.Message? {
        if Contains(r.value, repo) {
          matched := true;
          break;
        }
      }
    }
    FirstMatchSpec(messages, repo);
  }
}
