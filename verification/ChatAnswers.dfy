/**
 * The answer of a live send is the fold of the items its own stream delivered, whatever loads, sends, recoveries
 * and callbacks of other operations come in between.
 */
module ChatAnswers {
  import opened Wrappers
  import opened ChatProtocol
  import opened ChatInvariants
  import opened ChatEffects
  import opened ChatChannels
  import opened ChatTurns
  import opened ChatStreaming

  /** Send `i` owns the store, its answer `id` has started, and its stream can call back. */
  predicate Live(w: World, i: OpId, id: MessageId) {
    && w.store.requestId == Some(SendRequest(i))
    && i in w.ops && w.ops[i].SendOp? && w.ops[i].phase == AwaitOutcome(id)
    && i in w.channels && w.channels[i] == SendChannel(w.ops[i].ws)
  }

  /** What is shown, and what the next block depends on. */
  predicate SameView(s: Store, t: Store) {
    s.messages == t.messages && s.currentAssistant == t.currentAssistant && s.finalized == t.finalized
  }

  lemma LiveContinues(w: World, a: Action, i: OpId, id: MessageId)
    requires Inv(w) && Live(w, i, id) && a != DoReset
    ensures var v := Step(w, a); Inv(v) && WasSend(v, i) && (v.store.requestId == Some(SendRequest(i)) ==> Live(v, i, id))
  {
    hide Step;
    StepKeepsInv(w, a);
    StepMoves(w, a);
    StepOpens(w, a);
    OpeningKeepsSend(w, Step(w, a), i);
    assert Step(w, a).store.requestId == Some(SendRequest(i)) ==> i in Step(w, a).ops;
  }

  // ---------- Segments that leave the answer alone ----------

  lemma ActivateKeepsView(s: Store, ws: WorkspaceId)
    requires Consistent(s) && s.requestId.Some?
    ensures Activate(s, ws).requestId == s.requestId ==> SameView(s, Activate(s, ws))
  {
    hide WithoutPlaceholder;
  }

  lemma LoadKeepsView(w: World, op: OpId, body: Option<ThreadBody>)
    requires Inv(w) && w.store.requestId.Some? && op in w.ops && w.ops[op].LoadOp?
    ensures SameView(w.store, FinishLoad(w, op, body).store)
  {
    hide Loaded, Epoch, OpOk, Follows;
    assert w.store.requestWorkspace == w.store.active && w.store.active.Some?;
  }

  lemma OtherSendKeepsStore(w: World, a: Action, i: OpId)
    requires OfASend(a) && Enabled(w, a) && Bounded(w) && a.op != i && w.store.requestId == Some(SendRequest(i))
    ensures Step(w, a).store == w.store
  {
    GoneSegmentIsInert(w, a.op, a);
  }

  lemma CatchKeepsStore(w: World, op: OpId, o: Op, run: Option<RunId>, i: OpId)
    requires o.RecoveryOp? && w.store.requestId == Some(SendRequest(i))
    ensures CatchRecovery(w, op, o, run).store == w.store
  {
    hide IsCached, ReadMessages, Without;
  }

  lemma RecoveryKeepsStore(w: World, a: Action, i: OpId)
    requires OfARecovery(a) && Enabled(w, a) && w.store.requestId == Some(SendRequest(i)) && w.store.isSending
    ensures Step(w, a).store == w.store
  {
    hide CatchRecovery, LatestActive;
    match a
    case RecoveryRunsReplied(op, reply) => CatchKeepsStore(w, op, w.ops[op], None, i);
    case RecoveryRunsRead(op, runs, joins) =>
    case RecoveryRunsRejected(op) => CatchKeepsStore(w, op, w.ops[op], None, i);
    case RecoveryStreamEnded(op, ended) => CatchKeepsStore(w, op, w.ops[op], Some(w.ops[op].recovery.run), i);
    case RecoveryRefreshed(op) =>
  }

  lemma FinishGivesUp(w: World, op: OpId, result: TurnResult)
    ensures FinishSend(w, op, result).store.requestId != Some(SendRequest(op))
  {
  }

  lemma CatchGivesUp(w: World, op: OpId, ws: WorkspaceId, error: Thrown, spare: MessageId)
    ensures CatchSend(w, op, ws, error, spare).store.requestId != Some(SendRequest(op))
  {
    hide Reduce, IsCurrentSend, ErrorCaption, FinishSend;
    if !IsCurrentSend(w.store, op, ws) || error.isAbort {
      FinishGivesUp(w, op, Cancelled);
    } else {
      var started := if w.store.currentAssistant.None? then Reduce(w.store, AssistantStart(spare)) else w.store;
      var reported := Reduce(started, AssistantBlock(StatusLine(ErrorCaption(error), SEND_ERROR_RUN, "error", "")));
      FinishGivesUp(w.(store := Reduce(reported, Completion)), op, Failed(ErrorCaption(error)));
    }
  }

  lemma OutcomeGivesUp(w: World, op: OpId, outcome: StreamOutcome, spare: MessageId)
    requires op in w.ops && w.ops[op].SendOp? && w.ops[op].phase.AwaitOutcome?
    ensures SendOutcome(w, op, outcome, spare).store.requestId != Some(SendRequest(op))
  {
    hide Without, CatchSend;
    if outcome.StreamFailed? {
      CatchGivesUp(w, op, w.ops[op].ws, Thrown(false, outcome.error), spare);
    }
  }

  lemma OwnSendEnds(w: World, a: Action, i: OpId, id: MessageId)
    requires OfASend(a) && Enabled(w, a) && a.op == i && Live(w, i, id)
    ensures Step(w, a).store.requestId != Some(SendRequest(i))
  {
    hide Without, ErrorCaption;
    match a
    case SendStreamEnded(op, outcome, spare) => OutcomeGivesUp(w, op, outcome, spare);
  }

  lemma ForeignCallbackKeepsStore(w: World, op: OpId, item: StreamItem, i: OpId)
    requires op in w.channels && op != i && w.store.requestId == Some(SendRequest(i))
    ensures Deliver(w, op, item).store == w.store
  {
    hide Reduce;
  }

  lemma OwnCallbackReduces(w: World, item: StreamItem, i: OpId, id: MessageId)
    requires Inv(w) && Live(w, i, id)
    ensures Step(w, Callback(i, item)).store == Reduce(w.store, ItemEvent(item))
  {
    hide Reduce;
    assert OpOk(w, i);
  }

  lemma SameStoreSameView(s: Store)
    ensures SameView(s, s)
  {
  }

  lemma HoldingIsSending(w: World, i: OpId)
    requires Inv(w) && w.store.requestId == Some(SendRequest(i))
    ensures Consistent(w.store) && Bounded(w) && w.store.isSending
  {
  }

  /** A segment of another operation that leaves a send its store leaves it the view. */
  lemma HeldViewStays(w: World, a: Action, i: OpId)
    requires Inv(w) && w.store.requestId == Some(SendRequest(i)) && !a.DoEvent?
    requires !(OfASend(a) && a.op == i) && !(a.Callback? && a.op == i)
    requires Step(w, a).store.requestId == Some(SendRequest(i))
    ensures SameView(w.store, Step(w, a).store)
  {
    HoldingIsSending(w, i);
    hide OpOk, RequestOwned, Follows;
    if !Enabled(w, a) {
    } else if OfASend(a) {
      hide Step, SameView, Inv;
      OtherSendKeepsStore(w, a, i);
      SameStoreSameView(w.store);
    } else if OfARecovery(a) {
      hide Step, SameView, Inv;
      RecoveryKeepsStore(w, a, i);
      SameStoreSameView(w.store);
    } else {
      hide Activate, FinishLoad, Deliver, ChosenThread, IsCached, ReadMessages;
      match a
      case DoActivate(ws) => ActivateKeepsView(w.store, ws);
      case DoReset =>
      case DoStop =>
      case DoLoad(ws, force) =>
      case LoadReplied(op, thread) => LoadKeepsView(w, op, thread);
      case DoRefresh(ws) =>
      case RefreshSettled(ws, op) =>
      case DoSend(ws, content, has, user) =>
      case Callback(op, item) => ForeignCallbackKeepsStore(w, op, item, i);
      case DoRecover(ws, provided) =>
    }
  }

  /** An own segment of a live send other than a callback ends it, so a send that goes on keeps the view. */
  lemma LiveViewStays(w: World, a: Action, i: OpId, id: MessageId)
    requires Inv(w) && Live(w, i, id) && !a.DoEvent? && !(a.Callback? && a.op == i)
    requires Step(w, a).store.requestId == Some(SendRequest(i))
    ensures SameView(w.store, Step(w, a).store)
  {
    hide SameView;
    if OfASend(a) && a.op == i && Enabled(w, a) {
      OwnSendEnds(w, a, i, id);
    } else if OfASend(a) && a.op == i {
      SameStoreSameView(w.store);
    } else {
      hide Step, Inv;
      assert w.store.requestId == Some(SendRequest(i));
      HeldViewStays(w, a, i);
    }
  }

  // ---------- Folding the items ----------

  /** The blocks of an answer, and whether an authoritative block has reached it. */
  datatype Answer = Answer(blocks: seq<Block>, final: bool)

  function Tell(answer: Answer, item: StreamItem): Answer {
    match item
    case Delta(content) => answer.(blocks := Appended(answer.blocks, TextBlock(content)))
    case Final(block) => Answer(if answer.final then answer.blocks + [block] else [block], true)
  }

  function TellAll(answer: Answer, items: seq<StreamItem>): Answer
    decreases |items|
  {
    if items == [] then answer else TellAll(Tell(answer, items[0]), items[1..])
  }

  /** Message `k` is the first of its id, is being answered, and looks like `answer`. */
  predicate Shows(s: Store, k: nat, id: MessageId, answer: Answer) {
    && Answering(s, k, id) && s.messages[k].blocks == answer.blocks && (id in s.finalized <==> answer.final)
  }

  lemma ItemTells(s: Store, k: nat, id: MessageId, answer: Answer, item: StreamItem)
    requires Shows(s, k, id, answer)
    ensures var t := Reduce(s, ItemEvent(item));
            Shows(t, k, id, Tell(answer, item)) && t.messages == Reblocked(s.messages, k, Tell(answer, item).blocks)
  {
    assert FindIndex(s.messages, id) == Some(k);
  }

  lemma ViewTells(s: Store, t: Store, k: nat, id: MessageId, answer: Answer)
    requires SameView(s, t) && Shows(s, k, id, answer)
    ensures Shows(t, k, id, answer)
  {
  }

  // ---------- Whole runs ----------

  /** The items that the stream of operation `i` delivers during a run. */
  function Delivered(actions: seq<Action>, i: OpId): seq<StreamItem> {
    if actions == [] then []
    else (match actions[0] case Callback(op, item) => (if op == i then [item] else []) case _ => [])
         + Delivered(actions[1..], i)
  }

  predicate NoForeignEvents(actions: seq<Action>) {
    forall a <- actions :: !a.DoEvent?
  }

  lemma ShownBlocks(s: Store, k: nat, id: MessageId, answer: Answer)
    requires Shows(s, k, id, answer)
    ensures k < |s.messages| && s.messages[k].blocks == answer.blocks
  {
  }

  lemma StepTells(w: World, a: Action, i: OpId, id: MessageId, k: nat, answer: Answer)
    requires Inv(w) && Live(w, i, id) && Shows(w.store, k, id, answer) && !a.DoEvent?
    requires Step(w, a).store.requestId == Some(SendRequest(i))
    ensures var v, items := Step(w, a), Delivered([a], i);
            && Shows(v.store, k, id, TellAll(answer, items))
            && v.store.messages == Reblocked(w.store.messages, k, TellAll(answer, items).blocks)
  {
    hide Step, Shows, Reduce;
    assert |w.store.messages| > k && w.store.messages[k].blocks == answer.blocks by { ShownBlocks(w.store, k, id, answer); }
    if a.Callback? && a.op == i {
      OwnCallbackReduces(w, a.item, i, id);
      ItemTells(w.store, k, id, answer, a.item);
      assert Delivered([a], i) == [a.item];
    } else {
      LiveViewStays(w, a, i, id);
      ViewTells(w.store, Step(w, a).store, k, id, answer);
      assert Delivered([a], i) == [];
    }
  }

  lemma {:induction false} TellAllConcat(answer: Answer, first: seq<StreamItem>, second: seq<StreamItem>)
    ensures TellAll(answer, first + second) == TellAll(TellAll(answer, first), second)
    decreases |first|
  {
    if first == [] {
      assert first + second == second;
    } else {
      assert (first + second)[1..] == first[1..] + second;
      TellAllConcat(Tell(answer, first[0]), first[1..], second);
    }
  }

  lemma DeliveredFirst(actions: seq<Action>, i: OpId)
    requires actions != []
    ensures Delivered(actions, i) == Delivered([actions[0]], i) + Delivered(actions[1..], i)
  {
    assert Delivered([actions[0]][1..], i) == [];
  }

  lemma ResetGivesUp(w: World, i: OpId)
    requires Inv(w) && i in w.ops && w.ops[i].SendOp? && i in w.channels && w.channels[i].SendChannel?
    ensures Gone(Step(w, DoReset), i) && WasSend(Step(w, DoReset), i)
  {
  }

  /** A send that owns the store at the end of a run owned it throughout. */
  lemma LiveThroughout(w: World, a: Action, rest: seq<Action>, i: OpId, id: MessageId)
    requires Inv(w) && Live(w, i, id) && Play(Step(w, a), rest).store.requestId == Some(SendRequest(i))
    ensures a != DoReset && Inv(Step(w, a)) && Live(Step(w, a), i, id)
  {
    hide Step;
    if a == DoReset {
      ResetGivesUp(w, i);
    } else {
      LiveContinues(w, a, i, id);
    }
    StepKeepsInv(w, a);
    if Step(w, a).store.requestId != Some(SendRequest(i)) {
      PlayKeepsGone(Step(w, a), rest, i);
    }
  }

  lemma NothingDelivered(i: OpId)
    ensures Delivered([], i) == []
  {
  }

  lemma LiveOwns(w: World, i: OpId, id: MessageId)
    requires Live(w, i, id)
    ensures w.store.requestId == Some(SendRequest(i))
  {
  }

  lemma {:induction false} PlayTells(w: World, actions: seq<Action>, i: OpId, id: MessageId, k: nat, answer: Answer)
    requires Inv(w) && Live(w, i, id) && Shows(w.store, k, id, answer) && NoForeignEvents(actions)
    requires Play(w, actions).store.requestId == Some(SendRequest(i))
    ensures var told := TellAll(answer, Delivered(actions, i));
            k < |w.store.messages| && Play(w, actions).store.messages == Reblocked(w.store.messages, k, told.blocks)
    decreases |actions|
  {
    hide Step, Inv, Live, Shows, Delivered;
    ShownBlocks(w.store, k, id, answer);
    if actions == [] {
      assert Delivered(actions, i) == [] by { NothingDelivered(i); }
      assert Reblocked(w.store.messages, k, answer.blocks) == w.store.messages;
    } else {
      var a, rest := actions[0], actions[1..];
      LiveThroughout(w, a, rest, i, id);
      assert Step(w, a).store.requestId == Some(SendRequest(i)) by { LiveOwns(Step(w, a), i, id); }
      StepTells(w, a, i, id, k, answer);
      var told := TellAll(answer, Delivered([a], i));
      PlayTells(Step(w, a), rest, i, id, k, told);
      DeliveredFirst(actions, i);
      TellAllConcat(answer, Delivered([a], i), Delivered(rest, i));
      ReblockedTwice(w.store.messages, k, told.blocks, TellAll(told, Delivered(rest, i)).blocks);
    }
  }

  // ---------- From the start of the answer ----------

  /** The id of a new answer occurs nowhere yet. */
  predicate IsFreshId(s: Store, body: ThreadBody, id: MessageId) {
    id !in s.finalized && !HasId(s.messages, id) && (body.listing.Listed? ==> !HasId(body.listing.messages, id))
  }

  /** The list an answer is added to. */
  function Prior(s: Store, o: Op, body: ThreadBody): seq<Message>
    requires o.SendOp?
  {
    if !o.hadMessages && body.listing.Listed? then MergeById(s.messages, body.listing.messages) else s.messages
  }

  lemma {:induction false} NotSeenIsIncoming(existing: seq<Message>, incoming: seq<Message>)
    ensures forall m <- NotSeen(existing, incoming) :: m in incoming
  {
    if incoming != [] {
      NotSeenIsIncoming(existing, incoming[1..]);
    }
  }

  lemma PriorHasNoAnswer(s: Store, o: Op, body: ThreadBody, id: MessageId)
    requires o.SendOp? && IsFreshId(s, body, id)
    ensures forall m <- Prior(s, o, body) :: m.id != id
  {
    if body.listing.Listed? {
      NotSeenIsIncoming(s.messages, body.listing.messages);
    }
  }

  lemma StartedView(s: Store, o: Op, body: ThreadBody, id: MessageId)
    requires o.SendOp? && IsFreshId(s, body, id)
    ensures var t := AnswerStarted(s, o, body, id);
            && t.messages == Prior(s, o, body) + [Message(id, Assistant, [])]
            && Shows(t, |Prior(s, o, body)|, id, Answer([], false))
  {
    PriorHasNoAnswer(s, o, body, id);
    hide MergeById, NotSeen, HasId;
  }

  predicate MayAnswer(w: World, i: OpId, body: ThreadBody, id: MessageId) {
    && InSend(w, i, AwaitThreadBody) && w.store.requestId == Some(SendRequest(i)) && body.threadId != ""
    && (w.ops[i].hadMessages || !body.listing.Malformed?) && IsFreshId(w.store, body, id)
  }

  lemma AnswerStarts(u: World, i: OpId, body: ThreadBody, id: MessageId)
    requires Inv(u) && MayAnswer(u, i, body, id)
    ensures var w := Step(u, SendBodyRead(i, body, id, None));
            && Inv(w) && Live(w, i, id) && Shows(w.store, |Prior(u.store, u.ops[i], body)|, id, Answer([], false))
            && w.store.messages == Prior(u.store, u.ops[i], body) + [Message(id, Assistant, [])]
  {
    hide Shows, Prior, IsFreshId;
    var o := u.ops[i];
    StepKeepsInv(u, SendBodyRead(i, body, id, None));
    StartedView(u.store, o, body, id);
    assert OpOk(u, i);
    hide AnswerStarted, Inv;
    AnswerKeepsRequest(u.store, o, body, id);
    var t := AnswerStarted(u.store, o, body, id);
    assert Step(u, SendBodyRead(i, body, id, None)).store == t.(stream := Some(i), abortController := None);
    ViewTells(t, t.(stream := Some(i), abortController := None), |Prior(u.store, o, body)|, id, Answer([], false));
  }

  /**
   The answer of a live send is exactly what its own stream delivered since the answer started, after the list it
   was added to. Loads, sends, recoveries, switches and callbacks of other operations may come in between.
   */
  lemma LiveAnswerIsWhatWasDelivered(before: seq<Action>, i: OpId, body: ThreadBody, id: MessageId, actions: seq<Action>)
    requires MayAnswer(Play(INITIAL_WORLD, before), i, body, id) && NoForeignEvents(actions)
    requires var w := Step(Play(INITIAL_WORLD, before), SendBodyRead(i, body, id, None));
             Play(w, actions).store.requestId == Some(SendRequest(i))
    ensures var u := Play(INITIAL_WORLD, before);
            var w := Step(u, SendBodyRead(i, body, id, None));
            var told := TellAll(Answer([], false), Delivered(actions, i));
            Play(w, actions).store.messages == Prior(u.store, u.ops[i], body) + [Message(id, Assistant, told.blocks)]
  {
    hide Step, Inv, Live, Shows, Delivered, Prior, IsFreshId, ChannelsFit;
    var u := Play(INITIAL_WORLD, before);
    ReachableChannelsFit(before);
    AnswerStarts(u, i, body, id);
    var w, prior := Step(u, SendBodyRead(i, body, id, None)), Prior(u.store, u.ops[i], body);
    PlayTells(w, actions, i, id, |prior|, Answer([], false));
    var told := TellAll(Answer([], false), Delivered(actions, i));
    assert Reblocked(prior + [Message(id, Assistant, [])], |prior|, told.blocks)
        == prior + [Message(id, Assistant, told.blocks)];
  }

  // ---------- What is delivered ----------

  function DeltaItems(texts: seq<string>): seq<StreamItem> {
    seq(|texts|, n requires 0 <= n < |texts| => Delta(texts[n]))
  }

  function FinalItems(blocks: seq<Block>): seq<StreamItem> {
    seq(|blocks|, n requires 0 <= n < |blocks| => Final(blocks[n]))
  }

  lemma {:induction false} DeltasTell(answer: Answer, texts: seq<string>)
    ensures TellAll(answer, DeltaItems(texts)) == answer.(blocks := AppendAll(answer.blocks, Deltas(texts)))
    decreases |texts|
  {
    if texts != [] {
      DeltasTell(Tell(answer, Delta(texts[0])), texts[1..]);
      assert DeltaItems(texts)[1..] == DeltaItems(texts[1..]);
      assert Deltas(texts)[1..] == Deltas(texts[1..]);
    }
  }

  lemma {:induction false} FinalsTell(answer: Answer, blocks: seq<Block>)
    requires answer.final
    ensures TellAll(answer, FinalItems(blocks)) == Answer(answer.blocks + blocks, true)
    decreases |blocks|
  {
    if blocks == [] {
      assert answer.blocks + [] == answer.blocks;
    } else {
      FinalsTell(Tell(answer, Final(blocks[0])), blocks[1..]);
      assert FinalItems(blocks)[1..] == FinalItems(blocks[1..]);
      assert answer.blocks + [blocks[0]] + blocks[1..] == answer.blocks + blocks;
    }
  }

  lemma TextTells(texts: seq<string>)
    ensures TellAll(Answer([], false), DeltaItems(texts))
         == Answer(if texts != [] then [TextBlock(Concat(texts))] else [], false)
  {
    DeltasTell(Answer([], false), texts);
    if texts != [] {
      DeltasFold(texts[0], texts[1..]);
      assert Deltas(texts)[1..] == Deltas(texts[1..]);
      assert Appended([], TextBlock(texts[0])) == [TextBlock(texts[0])];
    }
  }

  lemma BlocksTell(answer: Answer, blocks: seq<Block>)
    requires blocks != [] && !answer.final
    ensures TellAll(answer, FinalItems(blocks)) == Answer(blocks, true)
  {
    var first, rest := blocks[0], blocks[1..];
    FinalsTell(Tell(answer, Final(first)), rest);
    assert FinalItems(blocks)[1..] == FinalItems(rest);
    assert blocks == [first] + rest;
  }

  /** A stream of text followed by authoritative blocks leaves the blocks, or the whole text if there are none. */
  lemma TextThenBlocks(texts: seq<string>, blocks: seq<Block>)
    ensures TellAll(Answer([], false), DeltaItems(texts) + FinalItems(blocks)).blocks
         == if blocks != [] then blocks else if texts != [] then [TextBlock(Concat(texts))] else []
  {
    TellAllConcat(Answer([], false), DeltaItems(texts), FinalItems(blocks));
    TextTells(texts);
    if blocks != [] {
      hide TellAll, FinalItems, DeltaItems;
      BlocksTell(TellAll(Answer([], false), DeltaItems(texts)), blocks);
    }
  }
}
