/**
 Which stream callbacks belong to which operation: a send's stream carries the callback of a send, a
 recovery that follows a run carries the callback of that run, and an opened callback never changes.
 */
module ChatChannels {
  import opened Wrappers
  import opened ChatProtocol
  import opened ChatInvariants
  import opened ChatEffects

  predicate ChannelFits(w: World, i: OpId)
    requires i in w.ops
  {
    match w.ops[i]
    case SendOp(_, _, _, _, _) => i in w.channels ==> w.channels[i].SendChannel?
    case RecoveryOp(ws, _, AwaitRun(run), _) => i in w.channels && w.channels[i] == RecoveryChannel(ws, run)
    case _ => true
  }

  predicate ChannelsFit(w: World) {
    forall i | i in w.ops :: ChannelFits(w, i)
  }

  /** The segment opened no stream, and no recovery began to follow a run. */
  predicate OpensNothing(w: World, v: World) {
    && v.channels == w.channels
    && forall i | i in v.ops ::
         if i in w.ops then
           && (v.ops[i].SendOp? <==> w.ops[i].SendOp?)
           && (v.ops[i].RecoveryOp? && v.ops[i].recovery.AwaitRun? ==>
                 w.ops[i].RecoveryOp? && w.ops[i].ws == v.ops[i].ws && w.ops[i].recovery == v.ops[i].recovery)
         else i >= w.nextOp && !(v.ops[i].RecoveryOp? && v.ops[i].recovery.AwaitRun?)
  }

  /** The segment opened the stream of the operation it belongs to. */
  predicate OpensOwn(w: World, v: World, op: OpId, channel: Channel) {
    && op in w.ops && v.ops.Keys == w.ops.Keys && v.channels == w.channels[op := channel]
    && (forall i | i in w.ops && i != op :: v.ops[i] == w.ops[i])
    && match channel
       case SendChannel(_) => w.ops[op].SendOp? && w.ops[op].phase == AwaitThreadBody && v.ops[op].SendOp?
       case RecoveryChannel(ws, run) =>
         && InRecovery(w, op, AwaitRunList) && w.ops[op].ws == ws
         && v.ops[op] == w.ops[op].(recovery := AwaitRun(run))
  }

  predicate Opens(w: World, v: World) {
    OpensNothing(w, v) || exists op | op in v.channels :: OpensOwn(w, v, op, v.channels[op])
  }

  lemma OpeningFits(w: World, v: World)
    requires Bounded(w) && ChannelsFit(w) && Opens(w, v)
    ensures ChannelsFit(v)
  {
  }

  // ---------- Every segment ----------

  lemma DroppedSendOpens(w: World, v: World, op: OpId)
    requires v.ops == w.ops - {op} && v.channels == w.channels
    ensures OpensNothing(w, v)
  {
  }

  lemma FinishSendOpens(w: World, op: OpId, result: TurnResult)
    ensures FinishSend(w, op, result).ops == w.ops - {op} && FinishSend(w, op, result).channels == w.channels
  {
  }

  lemma CatchSendOpens(w: World, op: OpId, ws: WorkspaceId, error: Thrown, spare: MessageId)
    ensures CatchSend(w, op, ws, error, spare).ops == w.ops - {op}
    ensures CatchSend(w, op, ws, error, spare).channels == w.channels
  {
    hide Reduce, FinishSend, IsCurrentSend, ErrorCaption;
    if !IsCurrentSend(w.store, op, ws) || error.isAbort {
      FinishSendOpens(w, op, Cancelled);
    } else {
      var started := if w.store.currentAssistant.None? then Reduce(w.store, AssistantStart(spare)) else w.store;
      var reported := Reduce(started, AssistantBlock(StatusLine(ErrorCaption(error), SEND_ERROR_RUN, "error", "")));
      FinishSendOpens(w.(store := Reduce(reported, Completion)), op, Failed(ErrorCaption(error)));
    }
  }

  lemma CatchSendOpensNothing(w: World, op: OpId, ws: WorkspaceId, error: Thrown, spare: MessageId)
    ensures Opens(w, CatchSend(w, op, ws, error, spare))
  {
    hide CatchSend;
    CatchSendOpens(w, op, ws, error, spare);
    DroppedSendOpens(w, CatchSend(w, op, ws, error, spare), op);
  }

  lemma SendReplyOpens(w: World, op: OpId, reply: Reply, spare: MessageId)
    requires InSend(w, op, AwaitThread)
    ensures Opens(w, SendThreadReply(w, op, reply, spare))
  {
    hide CatchSend, IsCurrentSend;
    if reply.Rejected? {
      CatchSendOpensNothing(w, op, w.ops[op].ws, reply.error, spare);
    } else {
      assert OpensNothing(w, SendThreadReply(w, op, reply, spare));
    }
  }

  lemma SendOutcomeOpens(w: World, op: OpId, outcome: StreamOutcome, spare: MessageId)
    requires op in w.ops && w.ops[op].SendOp? && w.ops[op].phase.AwaitOutcome?
    ensures Opens(w, SendOutcome(w, op, outcome, spare))
  {
    hide CatchSend, IsCurrentSend, SyncActive, Without, ClearTurn;
    if outcome.StreamFailed? && IsCurrentSend(w.store, op, w.ops[op].ws) {
      CatchSendOpensNothing(w, op, w.ops[op].ws, Thrown(false, outcome.error), spare);
    } else {
      assert OpensNothing(w, SendOutcome(w, op, outcome, spare));
    }
  }

  lemma SendBodyOpens(w: World, op: OpId, body: ThreadBody, assistant: MessageId, fault: Option<Thrown>)
    requires InSend(w, op, AwaitThreadBody)
    ensures Opens(w, SendThreadBody(w, op, body, assistant, fault))
  {
    hide AnswerStarted, CatchSend, IsCurrentSend, OpensNothing;
    var o := w.ops[op];
    var v := SendThreadBody(w, op, body, assistant, fault);
    if !IsCurrentSend(w.store, op, o.ws) {
      DroppedSendOpens(w, v, op);
    } else if body.threadId == "" {
      CatchSendOpens(w, op, o.ws, Thrown(false, THREAD_INVALID), assistant);
      DroppedSendOpens(w, v, op);
    } else if !o.hadMessages && body.listing.Malformed? {
      var named := w.(store := ThreadNamed(w.store, o.ws, body));
      CatchSendOpens(named, op, o.ws, body.listing.error, assistant);
      DroppedSendOpens(w, v, op);
    } else if fault.Some? {
      var started := w.(store := AnswerStarted(w.store, o, body, assistant));
      CatchSendOpens(started, op, o.ws, fault.value, assistant);
      assert v == CatchSend(started, op, o.ws, fault.value, assistant);
      DroppedSendOpens(w, v, op);
    } else {
      assert OpensOwn(w, v, op, v.channels[op]);
    }
  }

  lemma SendStepOpens(w: World, a: Action)
    requires Enabled(w, a) && OfASend(a)
    ensures Opens(w, Step(w, a))
  {
    hide Opens, CatchSend, SendThreadReply, SendThreadBody, SendOutcome;
    match a
    case SendThreadReplied(op, reply, spare) => SendReplyOpens(w, op, reply, spare);
    case SendErrorRead(op, error, spare) => CatchSendOpensNothing(w, op, w.ops[op].ws, error, spare);
    case SendBodyRead(op, body, spare, fault) => SendBodyOpens(w, op, body, spare, fault);
    case SendBodyRejected(op, error, spare) => CatchSendOpensNothing(w, op, w.ops[op].ws, error, spare);
    case SendStreamEnded(op, outcome, spare) => SendOutcomeOpens(w, op, outcome, spare);
  }

  lemma AwaitHistoryOpens(w: World, op: OpId, o: Op, result: TurnResult)
    requires Bounded(w) && op in w.ops && w.ops[op].RecoveryOp? && o.RecoveryOp?
    ensures OpensNothing(w, AwaitHistory(w, op, o, result))
  {
  }

  lemma CatchRecoveryOpens(w: World, op: OpId, o: Op, run: Option<RunId>)
    requires Bounded(w) && op in w.ops && w.ops[op].RecoveryOp? && o.RecoveryOp?
    ensures OpensNothing(w, CatchRecovery(w, op, o, run))
  {
    hide AwaitHistory;
    var s := w.store;
    var caught := if run.Some? && s.requestId == Some(RecoveryRequest(run.value))
                  then EndRecoveryTurn(SyncActive(s, Without(s.messages, RecoveryMessageId(run.value)))) else s;
    AwaitHistoryOpens(w.(store := caught), op, o, Nothing);
  }

  lemma ReturnedOpens(w: World, op: OpId, ws: WorkspaceId, result: TurnResult)
    ensures Opens(w, FinishRecovery(w, op, ws, result))
  {
  }

  lemma SameOpsOpen(w: World, u: World, v: World)
    requires u.ops == w.ops && u.channels == w.channels && u.nextOp == w.nextOp
    ensures OpensNothing(u, v) ==> OpensNothing(w, v)
  {
  }

  lemma RunListOpens(w: World, op: OpId, runs: seq<Run>, joins: bool)
    requires Bounded(w) && InRecovery(w, op, AwaitRunList)
    ensures Opens(w, RecoveryRunList(w, op, runs, joins))
  {
    hide LatestActive, BeginRecoveryTurn, MayRecover, CatchRecovery, FinishRecovery, OpensNothing;
    var o := w.ops[op];
    var latest := LatestActive(runs);
    var v := RecoveryRunList(w, op, runs, joins);
    if latest.None? || !MayRecover(w, o.ws) {
      ReturnedOpens(w, op, o.ws, Nothing);
    } else {
      var run := latest.value.id;
      var begun := w.(store := BeginRecoveryTurn(w.store, o.ws, run), activityEpochs := Bump(w.activityEpochs, o.ws));
      if joins {
        assert OpensOwn(w, v, op, v.channels[op]);
      } else {
        CatchRecoveryOpens(begun, op, o, Some(run));
        SameOpsOpen(w, begun, v);
      }
    }
  }

  lemma RunsReplyOpens(w: World, op: OpId, reply: Reply)
    requires Bounded(w) && InRecovery(w, op, AwaitRuns)
    ensures Opens(w, RecoveryRunsReply(w, op, reply))
  {
    hide CatchRecovery;
    if reply.Rejected? {
      CatchRecoveryOpens(w, op, w.ops[op], None);
    } else {
      assert OpensNothing(w, RecoveryRunsReply(w, op, reply));
    }
  }

  lemma RecoveryOutcomeOpens(w: World, op: OpId, outcome: Option<StreamOutcome>)
    requires Bounded(w) && op in w.ops && w.ops[op].RecoveryOp? && w.ops[op].recovery.AwaitRun?
    ensures Opens(w, RecoveryOutcome(w, op, outcome))
  {
    hide CatchRecovery, AwaitHistory, EndRecoveryTurn, IsCurrentRecovery;
    var o := w.ops[op];
    if outcome.None? {
      CatchRecoveryOpens(w, op, o, Some(o.recovery.run));
    } else if !IsCurrentRecovery(w.store, o.ws, o.recovery.run) {
      assert OpensNothing(w, FinishRecovery(w, op, o.ws, Nothing));
    } else {
      hide OpensNothing;
      var result := match outcome.value
                    case StreamCompleted => if o.launched.Some? then Launched(o.launched.value) else Completed
                    case StreamFailed(error) => Failed(error)
                    case StreamCancelled => Cancelled;
      var ended := w.(store := EndRecoveryTurn(w.store));
      AwaitHistoryOpens(ended, op, o, result);
      SameOpsOpen(w, ended, AwaitHistory(ended, op, o, result));
    }
  }

  lemma RecoveryStepOpens(w: World, a: Action)
    requires Bounded(w) && Enabled(w, a) && OfARecovery(a)
    ensures Opens(w, Step(w, a))
  {
    hide OpensNothing, CatchRecovery, RecoveryRunsReply, RecoveryRunList, RecoveryOutcome;
    match a
    case RecoveryRunsReplied(op, reply) => RunsReplyOpens(w, op, reply);
    case RecoveryRunsRead(op, runs, joins) => RunListOpens(w, op, runs, joins);
    case RecoveryRunsRejected(op) => CatchRecoveryOpens(w, op, w.ops[op], None);
    case RecoveryStreamEnded(op, ended) => RecoveryOutcomeOpens(w, op, ended);
    case RecoveryRefreshed(op) => ReturnedOpens(w, op, w.ops[op].ws, w.ops[op].recovery.result);
  }

  lemma StateOnlyOpens(w: World, v: World)
    requires v.ops == w.ops && v.channels == w.channels
    ensures Opens(w, v)
  {
  }

  lemma LoadOpens(w: World, ws: WorkspaceId, force: bool)
    requires Bounded(w)
    ensures Opens(w, StartLoad(w, ws, force))
  {
    hide IsCached, ReadMessages;
    assert OpensNothing(w, StartLoad(w, ws, force));
  }

  lemma LoadChannels(w: World, ws: WorkspaceId, force: bool)
    ensures StartLoad(w, ws, force).channels == w.channels
  {
  }

  lemma RefreshOpens(w: World, ws: WorkspaceId)
    requires Bounded(w)
    ensures Opens(w, Refresh(w, ws))
  {
    hide StartLoad;
    LoadOpens(w, ws, true);
    if ws in w.refreshing {
      StateOnlyOpens(w, w);
    } else {
      var loaded := StartLoad(w, ws, true);
      LoadChannels(w, ws, true);
      assert Refresh(w, ws).ops == loaded.ops && Refresh(w, ws).channels == loaded.channels;
    }
  }

  lemma LoadedOpens(w: World, op: OpId, body: Option<ThreadBody>)
    requires op in w.ops && w.ops[op].LoadOp?
    ensures Opens(w, FinishLoad(w, op, body))
  {
    hide Hydrate;
    var v := FinishLoad(w, op, body);
    assert v.ops == w.ops - {op} && v.channels == w.channels;
  }

  lemma SendOpens(w: World, ws: WorkspaceId, content: string, hasAttachments: bool, userMessage: MessageId)
    requires Bounded(w)
    ensures Opens(w, StartSend(w, ws, content, hasAttachments, userMessage))
  {
    hide Reduce, Activate, ReadMessages, AcceptsSend;
  }

  lemma DeliverOpens(w: World, op: OpId, item: StreamItem)
    requires op in w.channels
    ensures Opens(w, Deliver(w, op, item))
  {
    hide Reduce, IsCurrentChannel, LaunchedBy;
    assert OpensNothing(w, Deliver(w, op, item));
  }

  lemma RecoverOpens(w: World, ws: WorkspaceId, provided: Option<string>)
    requires Bounded(w)
    ensures Opens(w, StartRecovery(w, ws, provided))
  {
    hide ChosenThread;
  }

  /** Segments that neither start nor end an operation. */
  predicate StateOnly(a: Action) {
    a.DoActivate? || a.DoEvent? || a.DoReset? || a.DoStop? || a.RefreshSettled?
  }

  lemma StateOnlyStepOpens(w: World, a: Action)
    requires Enabled(w, a) && StateOnly(a)
    ensures Opens(w, Step(w, a))
  {
    hide Opens, Reduce, Activate;
    StateOnlyOpens(w, Step(w, a));
  }

  lemma OtherStepOpens(w: World, a: Action)
    requires Bounded(w) && Enabled(w, a) && !OfASend(a) && !OfARecovery(a) && !StateOnly(a)
    ensures Opens(w, Step(w, a))
  {
    hide Opens, StartLoad, Refresh, FinishLoad, StartSend, Deliver, StartRecovery;
    match a
    case DoLoad(ws, force) => LoadOpens(w, ws, force);
    case LoadReplied(op, thread) => LoadedOpens(w, op, thread);
    case DoRefresh(ws) => RefreshOpens(w, ws);
    case DoSend(ws, content, has, user) => SendOpens(w, ws, content, has, user);
    case Callback(op, item) => DeliverOpens(w, op, item);
    case DoRecover(ws, provided) => RecoverOpens(w, ws, provided);
  }

  lemma StepOpens(w: World, a: Action)
    requires Bounded(w)
    ensures Opens(w, Step(w, a))
  {
    if !Enabled(w, a) {
      StateOnlyOpens(w, w);
    } else if OfASend(a) {
      SendStepOpens(w, a);
    } else if OfARecovery(a) {
      RecoveryStepOpens(w, a);
    } else if StateOnly(a) {
      StateOnlyStepOpens(w, a);
    } else {
      OtherStepOpens(w, a);
    }
  }

  // ---------- Every run ----------

  lemma StepKeepsChannels(w: World, a: Action)
    requires Inv(w) && ChannelsFit(w)
    ensures ChannelsFit(Step(w, a))
  {
    hide Step, ChannelsFit;
    StepOpens(w, a);
    OpeningFits(w, Step(w, a));
  }

  lemma {:induction false} PlayKeepsChannels(w: World, actions: seq<Action>)
    requires Inv(w) && ChannelsFit(w)
    ensures Inv(Play(w, actions)) && ChannelsFit(Play(w, actions))
    decreases |actions|
  {
    hide Step, Inv, ChannelsFit;
    if actions != [] {
      StepKeepsInv(w, actions[0]);
      StepKeepsChannels(w, actions[0]);
      PlayKeepsChannels(Step(w, actions[0]), actions[1..]);
    }
  }

  /** Operation `i` is a send, or was one when it was pending. */
  predicate WasSend(w: World, i: OpId) {
    && i < w.nextOp
    && (i in w.ops ==> w.ops[i].SendOp?)
    && (i in w.channels ==> w.channels[i].SendChannel?)
  }

  lemma OpeningKeepsSend(w: World, v: World, i: OpId)
    requires WasSend(w, i) && Opens(w, v) && w.nextOp <= v.nextOp
    ensures WasSend(v, i)
  {
  }

  /** An operation that cannot join a run any more keeps the callback it has. */
  lemma OpeningKeepsCallback(w: World, v: World, i: OpId, channel: Channel)
    requires i in w.channels && w.channels[i] == channel && Opens(w, v)
    requires channel.RecoveryChannel?
    requires i in w.ops ==> w.ops[i].RecoveryOp? && !w.ops[i].recovery.AwaitRunList?
    ensures i in v.channels && v.channels[i] == channel
  {
  }
}
