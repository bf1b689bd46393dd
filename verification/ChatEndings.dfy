/** How a turn ends: what it leaves in the list, what it returns, and that it always gives the store back. */
module ChatEndings {
  import opened Wrappers
  import opened ChatProtocol
  import opened ChatInvariants
  import opened ChatEffects
  import opened ChatStreaming

  /** Nobody holds the store, and no transport is left in it. */
  predicate Freed(s: Store) {
    !s.isSending && s.requestId.None? && s.requestWorkspace.None? && s.abortController.None? && s.stream.None?
  }

  predicate Holds(w: World, op: OpId) {
    w.store.requestId == Some(SendRequest(op))
  }

  lemma FinishFrees(w: World, op: OpId, result: TurnResult)
    requires Holds(w, op)
    ensures Freed(FinishSend(w, op, result).store)
    ensures FinishSend(w, op, result).store.messages == w.store.messages
    ensures FinishSend(w, op, result).store.currentAssistant == w.store.currentAssistant
    ensures FinishSend(w, op, result).results == w.results[op := result]
  {
  }

  /** The record after a failure was written into the list. */
  function Reported(s: Store, error: Thrown, placeholder: MessageId): Store {
    var started := if s.currentAssistant.None? then Reduce(s, AssistantStart(placeholder)) else s;
    Reduce(Reduce(started, AssistantBlock(StatusLine(ErrorCaption(error), SEND_ERROR_RUN, "error", ""))), Completion)
  }

  lemma CompletionEndsTheAnswer(s: Store)
    ensures Reduce(s, Completion).currentAssistant.None? && Reduce(s, Completion).messages == s.messages
  {
  }

  lemma ReportedKeepsRequest(s: Store, error: Thrown, placeholder: MessageId)
    ensures Reported(s, error, placeholder).requestId == s.requestId
    ensures Reported(s, error, placeholder).currentAssistant.None?
  {
    hide ErrorCaption, Reduce;
    var started := if s.currentAssistant.None? then Reduce(s, AssistantStart(placeholder)) else s;
    ReduceKeepsRequest(s, AssistantStart(placeholder));
    var line := AssistantBlock(StatusLine(ErrorCaption(error), SEND_ERROR_RUN, "error", ""));
    ReduceKeepsRequest(started, line);
    ReduceKeepsRequest(Reduce(started, line), Completion);
    CompletionEndsTheAnswer(Reduce(started, line));
  }

  /** A failure of the current send that is not an abort. */
  lemma CatchReports(w: World, op: OpId, ws: WorkspaceId, error: Thrown, placeholder: MessageId)
    requires IsCurrentSend(w.store, op, ws) && !error.isAbort
    ensures var v := CatchSend(w, op, ws, error, placeholder);
            && Freed(v.store) && v.store.messages == Reported(w.store, error, placeholder).messages
            && v.store.currentAssistant.None?
            && v.results == w.results[op := Failed(ErrorCaption(error))]
  {
    hide ErrorCaption, Reduce, FinishSend;
    ReportedKeepsRequest(w.store, error, placeholder);
    FinishFrees(w.(store := Reported(w.store, error, placeholder)), op, Failed(ErrorCaption(error)));
  }

  lemma CatchFrees(w: World, op: OpId, ws: WorkspaceId, error: Thrown, placeholder: MessageId)
    requires Holds(w, op)
    ensures Freed(CatchSend(w, op, ws, error, placeholder).store)
  {
    hide ErrorCaption, Reduce, FinishSend, Freed, Reported;
    if IsCurrentSend(w.store, op, ws) && !error.isAbort {
      hide CatchSend;
      CatchReports(w, op, ws, error, placeholder);
    } else {
      FinishFrees(w, op, Cancelled);
    }
  }

  lemma BodyFrees(w: World, op: OpId, body: ThreadBody, assistant: MessageId, fault: Option<Thrown>)
    requires InSend(w, op, AwaitThreadBody) && Holds(w, op)
    ensures var v := SendThreadBody(w, op, body, assistant, fault); op in v.ops || Freed(v.store)
  {
    hide FinishSend, CatchSend, Freed, AnswerStarted;
    var o := w.ops[op];
    if !IsCurrentSend(w.store, op, o.ws) {
      FinishFrees(w, op, Cancelled);
    } else if body.threadId == "" {
      CatchFrees(w, op, o.ws, Thrown(false, THREAD_INVALID), assistant);
    } else if !o.hadMessages && body.listing.Malformed? {
      CatchFrees(w.(store := ThreadNamed(w.store, o.ws, body)), op, o.ws, body.listing.error, assistant);
    } else if fault.Some? {
      AnswerKeepsRequest(w.store, o, body, assistant);
      CatchFrees(w.(store := AnswerStarted(w.store, o, body, assistant)), op, o.ws, fault.value, assistant);
    }
  }

  lemma OutcomeFrees(w: World, op: OpId, outcome: StreamOutcome, spare: MessageId)
    requires op in w.ops && w.ops[op].SendOp? && w.ops[op].phase.AwaitOutcome? && Holds(w, op)
    ensures Freed(SendOutcome(w, op, outcome, spare).store)
  {
    hide FinishSend, CatchSend, Freed, Without;
    var o := w.ops[op];
    if !IsCurrentSend(w.store, op, o.ws) {
      FinishFrees(w, op, Cancelled);
    } else {
      match outcome
      case StreamCancelled =>
        FinishFrees(w.(store := SyncActive(w.store, Without(w.store.messages, o.phase.assistant))
                                .(currentAssistant := None)), op, Cancelled);
      case StreamFailed(error) => CatchFrees(w, op, o.ws, Thrown(false, error), spare);
      case StreamCompleted =>
        ReduceKeepsRequest(w.store, Completion);
        FinishFrees(w.(store := Reduce(w.store, Completion)), op,
                    if o.launched.Some? then Launched(o.launched.value) else Completed);
    }
  }

  /** However the send that holds the store returns, it gives the store and its transports back. */
  lemma EndingSendFreesTheStore(w: World, a: Action)
    requires OfASend(a) && Enabled(w, a) && Holds(w, a.op) && a.op !in Step(w, a).ops
    ensures Freed(Step(w, a).store)
  {
    hide Freed, CatchSend, FinishSend, SendThreadBody, SendOutcome;
    match a
    case SendThreadReplied(op, reply, spare) =>
      if reply.Rejected? { CatchFrees(w, op, w.ops[op].ws, reply.error, spare); }
      else { FinishFrees(w, op, Cancelled); }
    case SendErrorRead(op, error, spare) => CatchFrees(w, op, w.ops[op].ws, error, spare);
    case SendBodyRead(op, body, spare, fault) => BodyFrees(w, op, body, spare, fault);
    case SendBodyRejected(op, error, spare) => CatchFrees(w, op, w.ops[op].ws, error, spare);
    case SendStreamEnded(op, outcome, spare) => OutcomeFrees(w, op, outcome, spare);
  }

  // ---------- What is left in the list ----------

  /** A stream that fails leaves its answer as it was, followed by the error, and nothing else changes. */
  lemma FailureFollowsTheAnswer(w: World, op: OpId, message: string, spare: MessageId, i: nat, id: MessageId)
    requires op in w.ops && w.ops[op].SendOp? && w.ops[op].phase.AwaitOutcome?
    requires IsCurrentSend(w.store, op, w.ops[op].ws) && Answering(w.store, i, id)
    ensures var v := Step(w, SendStreamEnded(op, StreamFailed(message), spare));
            var caption := ErrorCaption(Thrown(false, message));
            && v.store.messages == Reblocked(w.store.messages, i,
                 w.store.messages[i].blocks + [StatusLine(caption, SEND_ERROR_RUN, "error", "")])
            && v.results == w.results[op := Failed(caption)] && Freed(v.store)
  {
    hide ErrorCaption, CatchSend, Freed;
    CatchReports(w, op, w.ops[op].ws, Thrown(false, message), spare);
    assert FindIndex(w.store.messages, id) == Some(i);
  }

  lemma ReportedInANewAnswer(s: Store, error: Thrown, spare: MessageId)
    requires s.currentAssistant.None? && !HasId(s.messages, spare)
    ensures var line := StatusLine(ErrorCaption(error), SEND_ERROR_RUN, "error", "");
            Reported(s, error, spare).messages == s.messages + [Message(spare, Assistant, [line])]
  {
    hide ErrorCaption;
    var line := StatusLine(ErrorCaption(error), SEND_ERROR_RUN, "error", "");
    var started := Reduce(s, AssistantStart(spare));
    var n := |s.messages|;
    assert started.messages[n].id == spare;
    assert forall j | 0 <= j < n :: started.messages[j] == s.messages[j] && s.messages[j].id != spare;
    assert FindIndex(started.messages, spare) == Some(n);
    assert [] + [line] == [line];
    assert Reblocked(started.messages, n, [line]) == s.messages + [Message(spare, Assistant, [line])];
  }

  /** What a segment of a send throws before the answer has started. */
  function EarlyError(w: World, a: Action): Option<Thrown>
    requires Enabled(w, a)
  {
    match a
    case SendThreadReplied(_, Rejected(error), _) => Some(error)
    case SendErrorRead(_, error, _) => Some(error)
    case SendBodyRejected(_, error, _) => Some(error)
    case SendBodyRead(op, body, _, _) =>
      if body.threadId == "" then Some(Thrown(false, THREAD_INVALID))
      else if !w.ops[op].hadMessages && body.listing.Malformed? then Some(body.listing.error)
      else None
    case _ => None
  }

  lemma EarlyErrorIsCaught(w: World, a: Action)
    requires Enabled(w, a) && OfASend(a) && EarlyError(w, a).Some? && IsCurrentSend(w.store, a.op, w.ops[a.op].ws)
    ensures var threadIds := if a.SendBodyRead? && a.body.threadId != ""
                             then w.store.threadIds[w.ops[a.op].ws := a.body.threadId] else w.store.threadIds;
            Step(w, a) == CatchSend(w.(store := w.store.(threadIds := threadIds)), a.op, w.ops[a.op].ws,
                                    EarlyError(w, a).value, a.spare)
  {
    hide CatchSend;
  }

  /**
   However a send fails before its answer has started - the request, the text of an error response, the body,
   an unusable thread or an unreadable message list - a new answer with just the error ends the list.
   */
  lemma EarlyFailureIsAppended(w: World, a: Action)
    requires Enabled(w, a) && OfASend(a) && EarlyError(w, a).Some? && !EarlyError(w, a).value.isAbort
    requires IsCurrentSend(w.store, a.op, w.ops[a.op].ws)
    requires w.store.currentAssistant.None? && !HasId(w.store.messages, a.spare)
    ensures var v, caption := Step(w, a), ErrorCaption(EarlyError(w, a).value);
            && v.store.messages == w.store.messages
                                   + [Message(a.spare, Assistant, [StatusLine(caption, SEND_ERROR_RUN, "error", "")])]
            && v.results == w.results[a.op := Failed(caption)] && Freed(v.store)
  {
    hide ErrorCaption, CatchSend, Freed, Reported, Step;
    var op, error := a.op, EarlyError(w, a).value;
    EarlyErrorIsCaught(w, a);
    var threadIds := if a.SendBodyRead? && a.body.threadId != ""
                     then w.store.threadIds[w.ops[op].ws := a.body.threadId] else w.store.threadIds;
    var caught := w.(store := w.store.(threadIds := threadIds));
    CatchReports(caught, op, w.ops[op].ws, error, a.spare);
    ReportedInANewAnswer(caught.store, error, a.spare);
  }

  lemma {:induction false} WithoutIsTheRest(messages: seq<Message>, id: MessageId)
    ensures !HasId(Without(messages, id), id)
    ensures forall m :: m in Without(messages, id) <==> m in messages && m.id != id
  {
    if messages != [] {
      WithoutIsTheRest(messages[1..], id);
      assert messages == [messages[0]] + messages[1..];
    }
  }

  /** A stream that is cancelled takes its answer away and leaves every other message. */
  lemma CancelledStreamLeavesNoAnswer(w: World, op: OpId, spare: MessageId)
    requires op in w.ops && w.ops[op].SendOp? && w.ops[op].phase.AwaitOutcome?
    requires IsCurrentSend(w.store, op, w.ops[op].ws)
    ensures var v := Step(w, SendStreamEnded(op, StreamCancelled, spare));
            var answer := w.ops[op].phase.assistant;
            && !HasId(v.store.messages, answer)
            && (forall m :: m in v.store.messages <==> m in w.store.messages && m.id != answer)
            && v.store.currentAssistant.None? && v.results == w.results[op := Cancelled] && Freed(v.store)
  {
    hide Freed, FinishSend, HasId, Without;
    var answer := w.ops[op].phase.assistant;
    WithoutIsTheRest(w.store.messages, answer);
    FinishFrees(w.(store := SyncActive(w.store, Without(w.store.messages, answer)).(currentAssistant := None)), op, Cancelled);
  }

  lemma {:induction false} NothingToTake(messages: seq<Message>, id: MessageId)
    requires forall m | m in messages :: m.id != id
    ensures Without(messages, id) == messages
  {
    if messages != [] {
      assert messages[0] in messages;
      NothingToTake(messages[1..], id);
    }
  }

  lemma {:induction false} WithoutSplits(first: seq<Message>, second: seq<Message>, id: MessageId)
    ensures Without(first + second, id) == Without(first, id) + Without(second, id)
  {
    if first == [] {
      assert first + second == second;
    } else {
      assert (first + second)[1..] == first[1..] + second;
      WithoutSplits(first[1..], second, id);
    }
  }

  /** The answer that a cancelled stream takes away leaves what was before it and what came after it in their order. */
  lemma CancelledAnswerLeavesAGap(w: World, op: OpId, spare: MessageId, front: seq<Message>, answer: Message, later: seq<Message>)
    requires op in w.ops && w.ops[op].SendOp? && w.ops[op].phase == AwaitOutcome(answer.id)
    requires IsCurrentSend(w.store, op, w.ops[op].ws) && w.store.messages == front + [answer] + later
    requires (forall m | m in front :: m.id != answer.id) && forall m | m in later :: m.id != answer.id
    ensures Step(w, SendStreamEnded(op, StreamCancelled, spare)).store.messages == front + later
  {
    WithoutSplits(front + [answer], later, answer.id);
    WithoutSplits(front, [answer], answer.id);
    NothingToTake(front, answer.id);
    NothingToTake(later, answer.id);
    assert Without([answer], answer.id) == [] by { assert [answer][1..] == []; }
    hide Without;
    assert front + [] == front;
  }

  lemma RefreshKeepsStore(w: World, ws: WorkspaceId)
    ensures Refresh(w, ws).store == w.store
  {
  }

  lemma {:induction false} WithoutAppended(messages: seq<Message>, m: Message)
    ensures Without(messages + [m], m.id) == Without(messages, m.id)
    ensures !HasId(messages, m.id) ==> Without(messages, m.id) == messages
  {
    if messages == [] {
      assert ([] + [m])[1..] == [];
    } else {
      assert (messages + [m])[1..] == messages[1..] + [m];
      WithoutAppended(messages[1..], m);
      assert messages == [messages[0]] + messages[1..];
    }
  }

  /**
   A recovery whose stream cannot be opened takes every answer of its run out of the list and leaves the store
   free: the list is as it was if and only if the run had no answer in it.
   */
  lemma FailedJoinDropsTheRun(w: World, op: OpId, runs: seq<Run>)
    requires Inv(w) && Enabled(w, RecoveryRunsRead(op, runs, false))
    requires MayRecover(w, w.ops[op].ws) && LatestActive(runs).Some?
    ensures var v := Step(w, RecoveryRunsRead(op, runs, false));
            var id := RecoveryMessageId(LatestActive(runs).value.id);
            && v.store.messages == Without(w.store.messages, id)
            && (v.store.messages == w.store.messages <==> !HasId(w.store.messages, id))
            && v.store.currentAssistant.None? && Freed(v.store)
  {
    hide LatestActive, Refresh, HasId, Without;
    var run := LatestActive(runs).value.id;
    var id := RecoveryMessageId(run);
    var s := BeginRecoveryTurn(w.store, w.ops[op].ws, run);
    assert s.messages == w.store.messages + [Message(id, Assistant, [])] && s.requestId == Some(RecoveryRequest(run));
    WithoutAppended(w.store.messages, Message(id, Assistant, []));
    WithoutIsTheRest(w.store.messages, id);
    var bumped := w.(store := s, activityEpochs := Bump(w.activityEpochs, w.ops[op].ws));
    var ended := EndRecoveryTurn(SyncActive(s, Without(s.messages, id)));
    RefreshKeepsStore(bumped.(store := ended), w.ops[op].ws);
  }

  // ---------- Switching workspaces ----------

  /** The list of the workspace that is left, without an answer that no block has reached. */
  function Outgoing(s: Store): seq<Message> {
    if s.currentAssistant.Some? then WithoutPlaceholder(s.messages, s.currentAssistant.value) else s.messages
  }

  lemma SwitchingAway(s: Store, here: WorkspaceId, there: WorkspaceId)
    requires s.active == Some(here) && there != here
    ensures var away := Activate(s, there);
            && Freed(away) && away.currentAssistant.None? && away.active == Some(there)
            && away.stored == s.stored[KeyOf(here) := Outgoing(s)]
            && away.messages == StoredMessages(s, KeyOf(there))
  {
    hide WithoutPlaceholder;
  }

  lemma NoAnswerNoLoss(s: Store)
    requires s.currentAssistant.None?
    ensures Outgoing(s) == s.messages
  {
  }

  /**
   Switching away gives up the turn and drops its answer if no block has reached it; switching back shows the
   rest of the list again, and no other list is touched on the way.
   */
  lemma SwitchingBackShowsTheList(s: Store, here: WorkspaceId, there: WorkspaceId)
    requires Consistent(s) && s.active == Some(here) && there != here
    ensures var back := Activate(Activate(s, there), here);
            && Freed(back) && back.active == Some(here) && back.messages == Outgoing(s)
            && StoredMessages(back, KeyOf(here)) == Outgoing(s)
    ensures var back := Activate(Activate(s, there), here);
            forall key | key != KeyOf(here) :: StoredMessages(back, key) == StoredMessages(s, key)
  {
    hide Activate, Outgoing;
    SwitchingAway(s, here, there);
    SwitchingAway(Activate(s, there), there, here);
    assert Outgoing(Activate(s, there)) == StoredMessages(s, KeyOf(there)) by {
      NoAnswerNoLoss(Activate(s, there));
    }
  }

  lemma {:induction false} PlaceholderIsTheOnlyLoss(messages: seq<Message>, id: MessageId)
    ensures forall m :: m in WithoutPlaceholder(messages, id) <==> m in messages && !(m.id == id && m.blocks == [])
  {
    if messages != [] {
      PlaceholderIsTheOnlyLoss(messages[1..], id);
      assert messages == [messages[0]] + messages[1..];
    }
  }
}
