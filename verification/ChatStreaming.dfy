/**
 What a stream leaves in the list: deltas fold into one text, and the authoritative blocks that
 follow replace whatever had been streamed.
 */
module ChatStreaming {
  import opened Wrappers
  import opened ChatProtocol
  import opened ChatInvariants

  /** Message `i` is the answer being streamed, and the first of its id. */
  predicate Answering(s: Store, i: nat, id: MessageId) {
    && i < |s.messages| && s.messages[i].id == id
    && (forall j | 0 <= j < i :: s.messages[j].id != id)
    && s.currentAssistant == Some(id)
  }

  function Streamed(blocks: seq<Block>): (r: seq<Event>)
    ensures |r| == |blocks| && forall k | 0 <= k < |r| :: r[k] == AssistantBlock(blocks[k])
  {
    seq(|blocks|, k requires 0 <= k < |blocks| => AssistantBlock(blocks[k]))
  }

  function Finals(blocks: seq<Block>): (r: seq<Event>)
    ensures |r| == |blocks| && forall k | 0 <= k < |r| :: r[k] == FinalizeBlock(blocks[k])
  {
    seq(|blocks|, k requires 0 <= k < |blocks| => FinalizeBlock(blocks[k]))
  }

  function Deltas(texts: seq<string>): (r: seq<Block>)
    ensures |r| == |texts| && forall k | 0 <= k < |r| :: r[k] == TextBlock(texts[k])
  {
    seq(|texts|, k requires 0 <= k < |texts| => TextBlock(texts[k]))
  }

  function Concat(texts: seq<string>): string {
    if texts == [] then "" else texts[0] + Concat(texts[1..])
  }

  function AppendAll(blocks: seq<Block>, more: seq<Block>): seq<Block>
    decreases |more|
  {
    if more == [] then blocks else AppendAll(Appended(blocks, more[0]), more[1..])
  }

  lemma {:induction false} ReduceAllSplits(s: Store, first: seq<Event>, second: seq<Event>)
    ensures ReduceAll(s, first + second) == ReduceAll(ReduceAll(s, first), second)
    decreases |first|
  {
    if first == [] {
      assert first + second == second;
    } else {
      assert (first + second)[1..] == first[1..] + second;
      ReduceAllSplits(Reduce(s, first[0]), first[1..], second);
    }
  }

  lemma {:induction false} StreamingFolds(s: Store, i: nat, id: MessageId, blocks: seq<Block>)
    requires Answering(s, i, id)
    ensures var t := ReduceAll(s, Streamed(blocks));
            && Answering(t, i, id) && t.finalized == s.finalized
            && t.messages == Reblocked(s.messages, i, AppendAll(s.messages[i].blocks, blocks))
    decreases |blocks|
  {
    if blocks != [] {
      assert FindIndex(s.messages, id) == Some(i);
      var t := Reduce(s, AssistantBlock(blocks[0]));
      assert t.messages == Reblocked(s.messages, i, Appended(s.messages[i].blocks, blocks[0]));
      StreamingFolds(t, i, id, blocks[1..]);
      assert Streamed(blocks)[1..] == Streamed(blocks[1..]);
      assert Reblocked(t.messages, i, AppendAll(t.messages[i].blocks, blocks[1..]))
          == Reblocked(s.messages, i, AppendAll(s.messages[i].blocks, blocks));
    }
  }

  lemma {:induction false} DeltasFold(text: string, texts: seq<string>)
    ensures AppendAll([TextBlock(text)], Deltas(texts)) == [TextBlock(text + Concat(texts))]
    decreases |texts|
  {
    if texts == [] {
      assert text + "" == text;
    } else {
      assert Deltas(texts)[1..] == Deltas(texts[1..]);
      DeltasFold(text + texts[0], texts[1..]);
      assert text + texts[0] + Concat(texts[1..]) == text + Concat(texts);
      assert Appended([TextBlock(text)], TextBlock(texts[0])) == [TextBlock(text + texts[0])];
    }
  }

  /** Text deltas streamed into a fresh answer leave one text block, their concatenation; no other message changes. */
  lemma DeltasLeaveOneText(s: Store, i: nat, id: MessageId, texts: seq<string>)
    requires Answering(s, i, id) && s.messages[i].blocks == [] && texts != []
    ensures ReduceAll(s, Streamed(Deltas(texts))).messages == Reblocked(s.messages, i, [TextBlock(Concat(texts))])
  {
    StreamingFolds(s, i, id, Deltas(texts));
    assert Deltas(texts)[1..] == Deltas(texts[1..]);
    DeltasFold(texts[0], texts[1..]);
    assert Appended([], TextBlock(texts[0])) == [TextBlock(texts[0])];
  }

  /** The first authoritative block replaces what was streamed, a later one is appended. */
  lemma FinalStep(s: Store, i: nat, id: MessageId, block: Block)
    requires Answering(s, i, id)
    ensures var t := Reduce(s, FinalizeBlock(block));
            && Answering(t, i, id) && t.finalized == s.finalized + {id}
            && t.messages == Reblocked(s.messages, i, if id in s.finalized then s.messages[i].blocks + [block] else [block])
  {
  }

  lemma ReblockedTwice(messages: seq<Message>, i: nat, first: seq<Block>, second: seq<Block>)
    requires i < |messages|
    ensures Reblocked(Reblocked(messages, i, first), i, second) == Reblocked(messages, i, second)
  {
  }

  lemma {:induction false} LaterFinalsAppend(s: Store, i: nat, id: MessageId, blocks: seq<Block>)
    requires Answering(s, i, id) && id in s.finalized
    ensures ReduceAll(s, Finals(blocks)).messages == Reblocked(s.messages, i, s.messages[i].blocks + blocks)
    ensures ReduceAll(s, Finals(blocks)).finalized == s.finalized
    decreases |blocks|
  {
    hide Reduce, FindIndex;
    if blocks == [] {
      assert s.messages[i].blocks + [] == s.messages[i].blocks;
      assert Reblocked(s.messages, i, s.messages[i].blocks) == s.messages;
    } else {
      FinalStep(s, i, id, blocks[0]);
      LaterFinalsAppend(Reduce(s, FinalizeBlock(blocks[0])), i, id, blocks[1..]);
      assert Finals(blocks)[1..] == Finals(blocks[1..]);
      assert s.messages[i].blocks + [blocks[0]] + blocks[1..] == s.messages[i].blocks + blocks;
      ReblockedTwice(s.messages, i, s.messages[i].blocks + [blocks[0]], s.messages[i].blocks + blocks);
    }
  }

  lemma FinalsReplace(s: Store, i: nat, id: MessageId, finals: seq<Block>)
    requires Answering(s, i, id) && finals != []
    ensures ReduceAll(s, Finals(finals)).messages
         == Reblocked(s.messages, i, if id in s.finalized then s.messages[i].blocks + finals else finals)
    ensures ReduceAll(s, Finals(finals)).finalized == s.finalized + {id}
  {
    if id in s.finalized {
      LaterFinalsAppend(s, i, id, finals);
    } else {
      FinalStep(s, i, id, finals[0]);
      LaterFinalsAppend(Reduce(s, FinalizeBlock(finals[0])), i, id, finals[1..]);
      assert Finals(finals)[1..] == Finals(finals[1..]);
      assert [finals[0]] + finals[1..] == finals;
      ReblockedTwice(s.messages, i, [finals[0]], finals);
    }
  }

  /**
   Whatever was streamed into an answer that no authoritative block has reached yet, the authoritative
   blocks that follow leave exactly themselves; once one has reached its id, they are appended to what was
   streamed. They go to the first message of the id, and no other message changes; the ids they have reached before stay
   known.
   */
  lemma FinalBlocksReplaceTheStream(s: Store, i: nat, id: MessageId, streamed: seq<Block>, finals: seq<Block>)
    requires Answering(s, i, id) && finals != []
    ensures var t := ReduceAll(s, Streamed(streamed) + Finals(finals));
            && t.finalized == s.finalized + {id}
            && (id !in s.finalized ==> t.messages == Reblocked(s.messages, i, finals))
            && (id in s.finalized ==>
                  t.messages == Reblocked(s.messages, i, AppendAll(s.messages[i].blocks, streamed) + finals))
  {
    ReduceAllSplits(s, Streamed(streamed), Finals(finals));
    StreamingFolds(s, i, id, streamed);
    var middle, blocks := ReduceAll(s, Streamed(streamed)), AppendAll(s.messages[i].blocks, streamed);
    FinalsReplace(middle, i, id, finals);
    ReblockedTwice(s.messages, i, blocks, finals);
    ReblockedTwice(s.messages, i, blocks, blocks + finals);
  }
}
