/**
 * Refreshes of one workspace share one load: from the segment that starts it until it is forgotten, no
 * interleaving replaces it and every further refresh joins it.
 */
module ChatRefresh {
  import opened Wrappers
  import opened ChatProtocol
  import opened ChatInvariants
  import opened ChatEffects

  predicate Shares(w: World, ws: WorkspaceId, load: OpId) {
    ws in w.refreshing && w.refreshing[ws] == load
  }

  /** The pending refreshes of `w` are still those of `v`, besides new ones. */
  predicate RefreshesStay(w: World, v: World) {
    forall ws <- w.refreshing :: Shares(v, ws, w.refreshing[ws])
  }

  lemma RefreshStays(w: World, ws: WorkspaceId)
    ensures RefreshesStay(w, Refresh(w, ws)) && Shares(Refresh(w, ws), ws, RefreshLoad(w, ws))
  {
    hide IsCached, ReadMessages;
  }

  lemma AwaitHistoryStays(w: World, op: OpId, o: Op, result: TurnResult)
    requires o.RecoveryOp?
    ensures RefreshesStay(w, AwaitHistory(w, op, o, result))
  {
    hide Refresh;
    RefreshStays(w, o.ws);
  }

  lemma CatchRecoveryStays(w: World, op: OpId, o: Op, run: Option<RunId>)
    requires o.RecoveryOp?
    ensures RefreshesStay(w, CatchRecovery(w, op, o, run))
  {
    hide AwaitHistory, EndRecoveryTurn, SyncActive, Without;
    var s := w.store;
    var caught := if run.Some? && s.requestId == Some(RecoveryRequest(run.value))
                  then EndRecoveryTurn(SyncActive(s, Without(s.messages, RecoveryMessageId(run.value)))) else s;
    AwaitHistoryStays(w.(store := caught), op, o, Nothing);
  }

  lemma RunsReplyStays(w: World, op: OpId, reply: Reply)
    requires op in w.ops && w.ops[op].RecoveryOp?
    ensures RefreshesStay(w, RecoveryRunsReply(w, op, reply))
  {
    hide CatchRecovery;
    if reply.Rejected? {
      CatchRecoveryStays(w, op, w.ops[op], None);
    }
  }

  lemma RunListStays(w: World, op: OpId, runs: seq<Run>, joins: bool)
    requires op in w.ops && w.ops[op].RecoveryOp?
    ensures RefreshesStay(w, RecoveryRunList(w, op, runs, joins))
  {
    hide CatchRecovery, LatestActive, MayRecover, BeginRecoveryTurn;
    var o := w.ops[op];
    var latest := LatestActive(runs);
    if latest.Some? && MayRecover(w, o.ws) && !joins {
      var run := latest.value.id;
      var begun := w.(store := BeginRecoveryTurn(w.store, o.ws, run), activityEpochs := Bump(w.activityEpochs, o.ws));
      CatchRecoveryStays(begun, op, o, Some(run));
    }
  }

  lemma RecoveryOutcomeStays(w: World, op: OpId, outcome: Option<StreamOutcome>)
    requires op in w.ops && w.ops[op].RecoveryOp? && w.ops[op].recovery.AwaitRun?
    ensures RefreshesStay(w, RecoveryOutcome(w, op, outcome))
  {
    hide CatchRecovery, AwaitHistory, EndRecoveryTurn, IsCurrentRecovery;
    var o := w.ops[op];
    if outcome.None? {
      CatchRecoveryStays(w, op, o, Some(o.recovery.run));
    } else if IsCurrentRecovery(w.store, o.ws, o.recovery.run) {
      var result := match outcome.value
                    case StreamCompleted => if o.launched.Some? then Launched(o.launched.value) else Completed
                    case StreamFailed(error) => Failed(error)
                    case StreamCancelled => Cancelled;
      AwaitHistoryStays(w.(store := EndRecoveryTurn(w.store)), op, o, result);
    }
  }

  lemma RecoveryStepStays(w: World, a: Action)
    requires Enabled(w, a) && OfARecovery(a)
    ensures RefreshesStay(w, Step(w, a))
  {
    hide CatchRecovery, RecoveryRunsReply, RecoveryRunList, RecoveryOutcome;
    match a
    case RecoveryRunsReplied(op, reply) => RunsReplyStays(w, op, reply);
    case RecoveryRunsRead(op, runs, joins) => RunListStays(w, op, runs, joins);
    case RecoveryRunsRejected(op) => CatchRecoveryStays(w, op, w.ops[op], None);
    case RecoveryStreamEnded(op, ended) => RecoveryOutcomeStays(w, op, ended);
    case RecoveryRefreshed(op) =>
  }

  lemma FinishLeavesRefreshes(w: World, op: OpId, result: TurnResult)
    ensures FinishSend(w, op, result).refreshing == w.refreshing
  {
  }

  lemma CatchSendLeavesRefreshes(w: World, op: OpId, ws: WorkspaceId, error: Thrown, spare: MessageId)
    ensures CatchSend(w, op, ws, error, spare).refreshing == w.refreshing
  {
    hide Reduce, IsCurrentSend, ErrorCaption, FinishSend;
    if !IsCurrentSend(w.store, op, ws) || error.isAbort {
      FinishLeavesRefreshes(w, op, Cancelled);
    } else {
      var started := if w.store.currentAssistant.None? then Reduce(w.store, AssistantStart(spare)) else w.store;
      var reported := Reduce(started, AssistantBlock(StatusLine(ErrorCaption(error), SEND_ERROR_RUN, "error", "")));
      FinishLeavesRefreshes(w.(store := Reduce(reported, Completion)), op, Failed(ErrorCaption(error)));
    }
  }

  lemma SendBodyLeavesRefreshes(w: World, op: OpId, body: ThreadBody, assistant: MessageId, fault: Option<Thrown>)
    requires InSend(w, op, AwaitThreadBody)
    ensures SendThreadBody(w, op, body, assistant, fault).refreshing == w.refreshing
  {
    hide IsCurrentSend, AnswerStarted, CatchSend;
    var o := w.ops[op];
    CatchSendLeavesRefreshes(w, op, o.ws, Thrown(false, THREAD_INVALID), assistant);
    if body.listing.Malformed? {
      CatchSendLeavesRefreshes(w.(store := ThreadNamed(w.store, o.ws, body)), op, o.ws, body.listing.error, assistant);
    }
    if fault.Some? {
      CatchSendLeavesRefreshes(w.(store := AnswerStarted(w.store, o, body, assistant)), op, o.ws, fault.value, assistant);
    }
  }

  lemma SendStepLeavesRefreshes(w: World, a: Action)
    requires Enabled(w, a) && OfASend(a)
    ensures Step(w, a).refreshing == w.refreshing
  {
    hide Reduce, IsCurrentSend, SyncActive, MergeById, Without, ClearTurn, CatchSend;
    match a
    case SendThreadReplied(op, reply, spare) =>
      if reply.Rejected? { CatchSendLeavesRefreshes(w, op, w.ops[op].ws, reply.error, spare); }
    case SendErrorRead(op, error, spare) => CatchSendLeavesRefreshes(w, op, w.ops[op].ws, error, spare);
    case SendBodyRead(op, body, spare, fault) => SendBodyLeavesRefreshes(w, op, body, spare, fault);
    case SendBodyRejected(op, error, spare) => CatchSendLeavesRefreshes(w, op, w.ops[op].ws, error, spare);
    case SendStreamEnded(op, outcome, spare) =>
      if outcome.StreamFailed? {
        CatchSendLeavesRefreshes(w, op, w.ops[op].ws, Thrown(false, outcome.error), spare);
      }
  }

  lemma EventLeavesRefreshes(w: World, e: Event, target: Option<WorkspaceId>)
    ensures HandleEvent(w, e, target).refreshing == w.refreshing
  {
    hide Reduce, Activate;
  }

  lemma LoadingLeavesRefreshes(w: World, ws: WorkspaceId, force: bool)
    ensures StartLoad(w, ws, force).refreshing == w.refreshing
  {
    hide IsCached, ReadMessages;
  }

  lemma LoadedLeavesRefreshes(w: World, op: OpId, thread: Option<ThreadBody>)
    requires op in w.ops && w.ops[op].LoadOp?
    ensures FinishLoad(w, op, thread).refreshing == w.refreshing
  {
    hide Hydrate, CanHydrate;
  }

  lemma TalkingLeavesRefreshes(w: World, a: Action)
    requires Enabled(w, a) && (a.DoActivate? || a.DoSend? || a.Callback? || a.DoRecover?)
    ensures Step(w, a).refreshing == w.refreshing
  {
    hide Reduce, Activate, ReadMessages, ChosenThread, AcceptsSend, IsCurrentChannel, NoteLaunch;
  }

  lemma StepStays(w: World, a: Action)
    requires a != DoReset && !a.RefreshSettled?
    ensures RefreshesStay(w, Step(w, a))
  {
    if !Enabled(w, a) {
    } else if OfASend(a) {
      SendStepLeavesRefreshes(w, a);
    } else if OfARecovery(a) {
      RecoveryStepStays(w, a);
    } else if a.DoRefresh? {
      RefreshStays(w, a.ws);
    } else {
      hide StartLoad, FinishLoad, StartSend, Deliver, StartRecovery, HandleEvent, SetActiveWorkspace;
      match a
      case DoActivate(_) => TalkingLeavesRefreshes(w, a);
      case DoEvent(event, target) => EventLeavesRefreshes(w, event, target);
      case DoStop =>
      case DoLoad(ws, force) => LoadingLeavesRefreshes(w, ws, force);
      case LoadReplied(op, thread) => LoadedLeavesRefreshes(w, op, thread);
      case DoSend(_, _, _, _) => TalkingLeavesRefreshes(w, a);
      case Callback(_, _) => TalkingLeavesRefreshes(w, a);
      case DoRecover(_, _) => TalkingLeavesRefreshes(w, a);
    }
  }

  lemma OtherSettledKeeps(w: World, a: Action, ws: WorkspaceId, load: OpId)
    requires a.RefreshSettled? && a != RefreshSettled(ws, load) && Shares(w, ws, load)
    ensures Shares(Step(w, a), ws, load)
  {
  }

  /** Until it is forgotten or everything is reset, a pending refresh stays the one of its workspace. */
  lemma {:induction false} PlayKeepsRefresh(w: World, actions: seq<Action>, ws: WorkspaceId, load: OpId)
    requires Shares(w, ws, load) && DoReset !in actions && RefreshSettled(ws, load) !in actions
    ensures Shares(Play(w, actions), ws, load)
    decreases |actions|
  {
    hide Step;
    if actions != [] {
      var a := actions[0];
      if a.RefreshSettled? {
        OtherSettledKeeps(w, a, ws, load);
      } else {
        StepStays(w, a);
      }
      PlayKeepsRefresh(Step(w, a), actions[1..], ws, load);
    }
  }

  /** While a refresh is pending, whatever happens in between, another one joins its load and starts nothing. */
  lemma RefreshesShareOneLoad(w: World, ws: WorkspaceId, actions: seq<Action>)
    requires DoReset !in actions && RefreshSettled(ws, RefreshLoad(w, ws)) !in actions
    ensures var v := Play(Refresh(w, ws), actions);
            Refresh(v, ws) == v && RefreshLoad(v, ws) == RefreshLoad(w, ws)
  {
    RefreshStays(w, ws);
    PlayKeepsRefresh(Refresh(w, ws), actions, ws, RefreshLoad(w, ws));
  }
}
