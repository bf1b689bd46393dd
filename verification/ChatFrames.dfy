/** What a segment leaves alone: an operation is changed only by its own segments and callbacks. */
module ChatFrames {
  import opened Wrappers
  import opened ChatProtocol
  import opened ChatInvariants
  import opened ChatChannels

  /** The segments and callbacks of operation `i`. */
  predicate Concerns(a: Action, i: OpId) {
    match a
    case LoadReplied(op, _) => op == i
    case SendThreadReplied(op, _, _) => op == i
    case SendErrorRead(op, _, _) => op == i
    case SendBodyRead(op, _, _, _) => op == i
    case SendBodyRejected(op, _, _) => op == i
    case SendStreamEnded(op, _, _) => op == i
    case Callback(op, _) => op == i
    case RecoveryRunsReplied(op, _) => op == i
    case RecoveryRunsRead(op, _, _) => op == i
    case RecoveryRunsRejected(op) => op == i
    case RecoveryStreamEnded(op, _) => op == i
    case RecoveryRefreshed(op) => op == i
    case _ => false
  }

  /** Operation `i` stands where it stood, with the stream it had and what it has returned. */
  predicate Untouched(w: World, v: World, i: OpId) {
    && (i in v.ops <==> i in w.ops) && (i in w.ops ==> v.ops[i] == w.ops[i])
    && (i in v.channels <==> i in w.channels) && (i in w.channels ==> v.channels[i] == w.channels[i])
    && (i in v.results <==> i in w.results) && (i in w.results ==> v.results[i] == w.results[i])
  }

  lemma SameOperations(w: World, v: World, i: OpId)
    requires v.ops == w.ops && v.channels == w.channels && v.results == w.results
    ensures Untouched(w, v, i)
  {
  }

  /** The record makes no difference. */
  lemma TouchesAsBefore(w: World, u: World, v: World, i: OpId)
    requires u.ops == w.ops && u.channels == w.channels && u.results == w.results && Untouched(u, v, i)
    ensures Untouched(w, v, i)
  {
  }

  lemma FinishTouches(w: World, op: OpId, result: TurnResult, i: OpId)
    requires op != i
    ensures Untouched(w, FinishSend(w, op, result), i)
  {
  }

  lemma CatchTouches(w: World, op: OpId, ws: WorkspaceId, error: Thrown, spare: MessageId, i: OpId)
    requires op != i
    ensures Untouched(w, CatchSend(w, op, ws, error, spare), i)
  {
    hide Untouched, FinishSend, Reduce, ErrorCaption, IsCurrentSend;
    if !IsCurrentSend(w.store, op, ws) || error.isAbort {
      FinishTouches(w, op, Cancelled, i);
    } else {
      var started := if w.store.currentAssistant.None? then Reduce(w.store, AssistantStart(spare)) else w.store;
      var reported := Reduce(started, AssistantBlock(StatusLine(ErrorCaption(error), SEND_ERROR_RUN, "error", "")));
      var u := w.(store := Reduce(reported, Completion));
      FinishTouches(u, op, Failed(ErrorCaption(error)), i);
      TouchesAsBefore(w, u, CatchSend(w, op, ws, error, spare), i);
    }
  }

  lemma OpenedTouches(w: World, op: OpId, o: Op, s: Store, channel: Channel, i: OpId)
    requires op != i
    ensures Untouched(w, SetOp(w.(store := s, channels := w.channels[op := channel]), op, o), i)
  {
  }

  lemma BodyTouches(w: World, op: OpId, body: ThreadBody, assistant: MessageId, fault: Option<Thrown>, i: OpId)
    requires InSend(w, op, AwaitThreadBody) && op != i
    ensures Untouched(w, SendThreadBody(w, op, body, assistant, fault), i)
  {
    hide Untouched, FinishSend, CatchSend, IsCurrentSend, AnswerStarted, SetOp;
    var o := w.ops[op];
    if !IsCurrentSend(w.store, op, o.ws) {
      FinishTouches(w, op, Cancelled, i);
    } else if body.threadId == "" {
      CatchTouches(w, op, o.ws, Thrown(false, THREAD_INVALID), assistant, i);
    } else if !o.hadMessages && body.listing.Malformed? {
      var named := w.(store := ThreadNamed(w.store, o.ws, body));
      CatchTouches(named, op, o.ws, body.listing.error, assistant, i);
      TouchesAsBefore(w, named, SendThreadBody(w, op, body, assistant, fault), i);
    } else {
      var started := w.(store := AnswerStarted(w.store, o, body, assistant));
      if fault.Some? {
        CatchTouches(started, op, o.ws, fault.value, assistant, i);
        TouchesAsBefore(w, started, SendThreadBody(w, op, body, assistant, fault), i);
      } else {
        OpenedTouches(w, op, o.(phase := AwaitOutcome(assistant)),
                      started.store.(stream := Some(op), abortController := None), SendChannel(o.ws), i);
      }
    }
  }

  lemma OutcomeTouches(w: World, op: OpId, outcome: StreamOutcome, spare: MessageId, i: OpId)
    requires op in w.ops && w.ops[op].SendOp? && w.ops[op].phase.AwaitOutcome? && op != i
    ensures Untouched(w, SendOutcome(w, op, outcome, spare), i)
  {
    hide Untouched, FinishSend, CatchSend, IsCurrentSend, SyncActive, Reduce;
    var o, s, v := w.ops[op], w.store, SendOutcome(w, op, outcome, spare);
    if !IsCurrentSend(s, op, o.ws) {
      FinishTouches(w, op, Cancelled, i);
    } else {
      match outcome
      case StreamCancelled =>
        var u := w.(store := SyncActive(s, Without(s.messages, o.phase.assistant)).(currentAssistant := None));
        FinishTouches(u, op, Cancelled, i);
        TouchesAsBefore(w, u, v, i);
      case StreamFailed(error) => CatchTouches(w, op, o.ws, Thrown(false, error), spare, i);
      case StreamCompleted =>
        var u := w.(store := Reduce(s, Completion));
        FinishTouches(u, op, if o.launched.Some? then Launched(o.launched.value) else Completed, i);
        TouchesAsBefore(w, u, v, i);
    }
  }

  lemma ReplyTouches(w: World, op: OpId, reply: Reply, spare: MessageId, i: OpId)
    requires InSend(w, op, AwaitThread) && op != i
    ensures Untouched(w, SendThreadReply(w, op, reply, spare), i)
  {
    hide CatchSend, FinishSend, IsCurrentSend;
    if reply.Rejected? {
      CatchTouches(w, op, w.ops[op].ws, reply.error, spare, i);
    } else {
      FinishTouches(w, op, Cancelled, i);
    }
  }

  lemma SendStepTouches(w: World, a: Action, i: OpId)
    requires Enabled(w, a) && OfASend(a) && a.op != i
    ensures Untouched(w, Step(w, a), i)
  {
    hide Untouched, CatchSend, SendThreadBody, SendOutcome;
    match a
    case SendThreadReplied(op, reply, spare) => ReplyTouches(w, op, reply, spare, i);
    case SendErrorRead(op, error, spare) => CatchTouches(w, op, w.ops[op].ws, error, spare, i);
    case SendBodyRead(op, body, spare, fault) => BodyTouches(w, op, body, spare, fault, i);
    case SendBodyRejected(op, error, spare) => CatchTouches(w, op, w.ops[op].ws, error, spare, i);
    case SendStreamEnded(op, outcome, spare) => OutcomeTouches(w, op, outcome, spare, i);
  }

  lemma LoadTouches(w: World, ws: WorkspaceId, force: bool, i: OpId)
    requires i < w.nextOp
    ensures Untouched(w, StartLoad(w, ws, force), i)
  {
    hide IsCached, ReadMessages;
  }

  lemma AwaitTouches(w: World, op: OpId, o: Op, result: TurnResult, i: OpId)
    requires o.RecoveryOp? && op != i && i < w.nextOp
    ensures Untouched(w, AwaitHistory(w, op, o, result), i)
  {
    hide StartLoad;
    LoadTouches(w, o.ws, true, i);
  }

  lemma CatchRecoveryTouches(w: World, op: OpId, o: Op, run: Option<RunId>, i: OpId)
    requires o.RecoveryOp? && op != i && i < w.nextOp
    ensures Untouched(w, CatchRecovery(w, op, o, run), i)
  {
    hide AwaitHistory, Without;
    var s := w.store;
    var caught := if run.Some? && s.requestId == Some(RecoveryRequest(run.value))
                  then EndRecoveryTurn(SyncActive(s, Without(s.messages, RecoveryMessageId(run.value)))) else s;
    AwaitTouches(w.(store := caught), op, o, Nothing, i);
    hide Untouched;
    TouchesAsBefore(w, w.(store := caught), CatchRecovery(w, op, o, run), i);
  }

  lemma FinishRecoveryTouches(w: World, op: OpId, ws: WorkspaceId, result: TurnResult, i: OpId)
    requires op != i
    ensures Untouched(w, FinishRecovery(w, op, ws, result), i)
  {
  }

  lemma RunListTouches(w: World, op: OpId, runs: seq<Run>, joins: bool, i: OpId)
    requires InRecovery(w, op, AwaitRunList) && op != i && i < w.nextOp
    ensures Untouched(w, RecoveryRunList(w, op, runs, joins), i)
  {
    hide Untouched, CatchRecovery, FinishRecovery, LatestActive, BeginRecoveryTurn, SetOp, MayRecover;
    var o, latest := w.ops[op], LatestActive(runs);
    if latest.None? || !MayRecover(w, o.ws) {
      FinishRecoveryTouches(w, op, o.ws, Nothing, i);
    } else {
      var run := latest.value.id;
      var begun := w.(store := BeginRecoveryTurn(w.store, o.ws, run), activityEpochs := Bump(w.activityEpochs, o.ws));
      if !joins {
        CatchRecoveryTouches(begun, op, o, Some(run), i);
        TouchesAsBefore(w, begun, RecoveryRunList(w, op, runs, joins), i);
      } else {
        OpenedTouches(begun, op, o.(recovery := AwaitRun(run)), begun.store.(stream := Some(op)), RecoveryChannel(o.ws, run), i);
        TouchesAsBefore(w, begun, RecoveryRunList(w, op, runs, joins), i);
      }
    }
  }

  lemma RecoveryOutcomeTouches(w: World, op: OpId, outcome: Option<StreamOutcome>, i: OpId)
    requires op in w.ops && w.ops[op].RecoveryOp? && w.ops[op].recovery.AwaitRun? && op != i && i < w.nextOp
    ensures Untouched(w, RecoveryOutcome(w, op, outcome), i)
  {
    hide Untouched, CatchRecovery, AwaitHistory, IsCurrentRecovery, FinishRecovery, EndRecoveryTurn;
    var o := w.ops[op];
    if outcome.None? {
      CatchRecoveryTouches(w, op, o, Some(o.recovery.run), i);
    } else if !IsCurrentRecovery(w.store, o.ws, o.recovery.run) {
      FinishRecoveryTouches(w, op, o.ws, Nothing, i);
    } else {
      var result := match outcome.value
                    case StreamCompleted => if o.launched.Some? then Launched(o.launched.value) else Completed
                    case StreamFailed(error) => Failed(error)
                    case StreamCancelled => Cancelled;
      var ended := w.(store := EndRecoveryTurn(w.store));
      AwaitTouches(ended, op, o, result, i);
      TouchesAsBefore(w, ended, RecoveryOutcome(w, op, outcome), i);
    }
  }

  lemma RunsReplyTouches(w: World, op: OpId, reply: Reply, i: OpId)
    requires InRecovery(w, op, AwaitRuns) && op != i && i < w.nextOp
    ensures Untouched(w, RecoveryRunsReply(w, op, reply), i)
  {
    hide CatchRecovery;
    if reply.Rejected? {
      CatchRecoveryTouches(w, op, w.ops[op], None, i);
    }
  }

  lemma RecoveryStepTouches(w: World, a: Action, i: OpId)
    requires Enabled(w, a) && OfARecovery(a) && a.op != i && i < w.nextOp
    ensures Untouched(w, Step(w, a), i)
  {
    hide Untouched, CatchRecovery, RecoveryRunsReply, RecoveryRunList, RecoveryOutcome, FinishRecovery;
    match a
    case RecoveryRunsReplied(op, reply) => RunsReplyTouches(w, op, reply, i);
    case RecoveryRunsRead(op, runs, joins) => RunListTouches(w, op, runs, joins, i);
    case RecoveryRunsRejected(op) => CatchRecoveryTouches(w, op, w.ops[op], None, i);
    case RecoveryStreamEnded(op, ended) => RecoveryOutcomeTouches(w, op, ended, i);
    case RecoveryRefreshed(op) => FinishRecoveryTouches(w, op, w.ops[op].ws, w.ops[op].recovery.result, i);
  }

  lemma FinishLoadTouches(w: World, op: OpId, body: Option<ThreadBody>, i: OpId)
    requires op in w.ops && w.ops[op].LoadOp? && op != i
    ensures Untouched(w, FinishLoad(w, op, body), i)
  {
    hide Hydrate, CanHydrate;
  }

  lemma StartSendTouches(w: World, ws: WorkspaceId, content: string, has: bool, user: MessageId, i: OpId)
    requires i < w.nextOp
    ensures Untouched(w, StartSend(w, ws, content, has, user), i)
  {
    hide Reduce, Activate, ReadMessages, AcceptsSend;
  }

  lemma RefreshTouches(w: World, ws: WorkspaceId, i: OpId)
    requires i < w.nextOp
    ensures Untouched(w, Refresh(w, ws), i)
  {
    hide StartLoad;
    LoadTouches(w, ws, true, i);
  }

  lemma DeliverTouches(w: World, op: OpId, item: StreamItem, i: OpId)
    requires op in w.channels && op != i
    ensures Untouched(w, Deliver(w, op, item), i)
  {
    hide Reduce, IsCurrentChannel, NoteLaunch;
  }

  lemma StartRecoveryTouches(w: World, ws: WorkspaceId, provided: Option<string>, i: OpId)
    requires i < w.nextOp
    ensures Untouched(w, StartRecovery(w, ws, provided), i)
  {
    hide ChosenThread, MayRecover;
  }

  lemma EventTouches(w: World, e: Event, target: Option<WorkspaceId>, i: OpId)
    ensures Untouched(w, HandleEvent(w, e, target), i)
  {
    hide Untouched, Reduce, Activate;
    SameOperations(w, HandleEvent(w, e, target), i);
  }

  lemma StateOnlyTouches(w: World, a: Action, i: OpId)
    requires Enabled(w, a) && StateOnly(a)
    ensures Untouched(w, Step(w, a), i)
  {
    hide Untouched, HandleEvent, Activate;
    match a
    case DoActivate(ws) => SameOperations(w, SetActiveWorkspace(w, ws), i);
    case DoEvent(event, target) => EventTouches(w, event, target, i);
    case DoReset => SameOperations(w, Reset(w), i);
    case DoStop => SameOperations(w, Stop(w), i);
    case RefreshSettled(ws, op) => SameOperations(w, ClearRefresh(w, ws, op), i);
  }

  lemma OtherStepTouches(w: World, a: Action, i: OpId)
    requires i < w.nextOp && !Concerns(a, i) && Enabled(w, a) && !OfASend(a) && !OfARecovery(a) && !StateOnly(a)
    ensures Untouched(w, Step(w, a), i)
  {
    hide Untouched, StartLoad, FinishLoad, StartSend, Refresh, Deliver, StartRecovery;
    match a
    case DoLoad(ws, force) => LoadTouches(w, ws, force, i);
    case LoadReplied(op, thread) => FinishLoadTouches(w, op, thread, i);
    case DoRefresh(ws) => RefreshTouches(w, ws, i);
    case DoSend(ws, content, has, user) => StartSendTouches(w, ws, content, has, user, i);
    case Callback(op, item) => DeliverTouches(w, op, item, i);
    case DoRecover(ws, provided) => StartRecoveryTouches(w, ws, provided, i);
  }

  /** An operation is changed only by its own segments and callbacks. */
  lemma OthersLeaveItAlone(w: World, a: Action, i: OpId)
    requires i < w.nextOp && !Concerns(a, i)
    ensures Untouched(w, Step(w, a), i)
  {
    if !Enabled(w, a) {
      SameOperations(w, w, i);
    } else if OfASend(a) {
      SendStepTouches(w, a, i);
    } else if OfARecovery(a) {
      RecoveryStepTouches(w, a, i);
    } else if StateOnly(a) {
      StateOnlyTouches(w, a, i);
    } else {
      OtherStepTouches(w, a, i);
    }
  }
}
