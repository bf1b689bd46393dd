/**
 What one segment other than a reset can change, whatever it is: operations keep their workspace and
 kind, epochs only grow, the recovery lock is released only by its holder, and the request id moves
 only to a new send or to a recovery that has just found its run.
 */
module ChatEffects {
  import opened Wrappers
  import opened ChatProtocol
  import opened ChatInvariants

  /** How an operation that goes on may look after a segment. */
  predicate Continues(o: Op, p: Op) {
    && o.ws == p.ws
    && (o.SendOp? <==> p.SendOp?)
    && (o.LoadOp? <==> p.LoadOp?)
    && (o.LoadOp? ==> p == o)
    && (o.SendOp? && o.phase.AwaitOutcome? ==> p.SendOp? && p.phase == o.phase)
    && (o.RecoveryOp? && o.recovery.AwaitRun? ==> p.recovery.AwaitRefresh? || p.recovery == o.recovery)
    && (o.RecoveryOp? && o.recovery.AwaitRefresh? ==> p.recovery == o.recovery)
  }

  predicate RequestMoves(w: World, v: World) {
    || v.store.requestId == w.store.requestId
    || v.store.requestId.None?
    || (v.store.requestId.value.SendRequest? && v.store.requestId.value.op >= w.nextOp)
    || (v.store.requestId.value.RecoveryRequest?
        && exists i | i in w.ops :: InRecovery(w, i, AwaitRunList) && w.ops[i].ws == v.store.requestId.value.run.owner)
  }

  predicate OpsMove(w: World, v: World) {
    && w.nextOp <= v.nextOp
    && forall i | i in v.ops :: if i in w.ops then Continues(w.ops[i], v.ops[i]) else w.nextOp <= i < v.nextOp
  }

  /** Epochs never fall, and a new load takes an epoch that no earlier load of its workspace had. */
  ghost predicate EpochsGrow(w: World, v: World) {
    && (forall i | i in v.ops && i !in w.ops && v.ops[i].LoadOp? ::
          Epoch(w.historyEpochs, v.ops[i].ws) < v.ops[i].requestEpoch <= Epoch(v.historyEpochs, v.ops[i].ws))
    && (forall ws :: Epoch(w.historyEpochs, ws) <= Epoch(v.historyEpochs, ws))
    && (forall ws :: Epoch(w.activityEpochs, ws) <= Epoch(v.activityEpochs, ws))
  }

  predicate IsRecoveryOf(w: World, i: OpId, ws: WorkspaceId) {
    i in w.ops && w.ops[i].RecoveryOp? && w.ops[i].ws == ws
  }

  /** A new recovery takes a free lock; a lock is released together with a recovery that held it. */
  predicate LocksMove(w: World, v: World) {
    && (forall i | i in v.ops && i !in w.ops && v.ops[i].RecoveryOp? ::
          i == w.nextOp && v.ops[i].ws !in w.recovering && v.recovering == w.recovering + {v.ops[i].ws})
    && (forall ws | ws in w.recovering && ws !in v.recovering ::
          exists i | i in w.ops :: IsRecoveryOf(w, i, ws) && i !in v.ops)
  }

  ghost predicate Moves(w: World, v: World) {
    RequestMoves(w, v) && OpsMove(w, v) && EpochsGrow(w, v) && LocksMove(w, v)
  }

  // ---------- Shapes of segments ----------

  predicate KeepsOrClears(w: World, v: World) {
    v.store.requestId == w.store.requestId || v.store.requestId.None?
  }

  predicate SameMaps(w: World, v: World) {
    v.historyEpochs == w.historyEpochs && v.activityEpochs == w.activityEpochs && v.recovering == w.recovering
  }

  /** Only the state record, or the entry of a continuing operation, changed. */
  lemma StayMoves(w: World, v: World)
    requires KeepsOrClears(w, v) && SameMaps(w, v) && v.nextOp == w.nextOp && v.ops.Keys <= w.ops.Keys
    requires forall i | i in v.ops :: Continues(w.ops[i], v.ops[i])
    ensures Moves(w, v)
  {
  }

  /** A send or a load ended. */
  predicate EndsOp(w: World, v: World, op: OpId) {
    KeepsOrClears(w, v) && SameMaps(w, v) && v.nextOp == w.nextOp && v.ops == w.ops - {op}
  }

  lemma EndMoves(w: World, v: World, op: OpId)
    requires EndsOp(w, v, op)
    ensures Moves(w, v)
  {
    hide Moves;
    StayMoves(w, v);
  }

  lemma ReduceKeepsRequest(s: Store, e: Event)
    ensures Reduce(s, e).requestId == s.requestId
  {
  }

  lemma FinishSendEnds(w: World, s: Store, op: OpId, result: TurnResult)
    requires s.requestId == w.store.requestId
    ensures EndsOp(w, FinishSend(w.(store := s), op, result), op)
  {
  }

  lemma CatchSendEnds(w: World, op: OpId, ws: WorkspaceId, error: Thrown, placeholder: MessageId)
    ensures EndsOp(w, CatchSend(w, op, ws, error, placeholder), op)
  {
    if !IsCurrentSend(w.store, op, ws) || error.isAbort {
      FinishSendEnds(w, w.store, op, Cancelled);
    } else {
      var caption := ErrorCaption(error);
      ReduceKeepsRequest(w.store, AssistantStart(placeholder));
      var started := if w.store.currentAssistant.None? then Reduce(w.store, AssistantStart(placeholder)) else w.store;
      var line := AssistantBlock(StatusLine(caption, SEND_ERROR_RUN, "error", ""));
      ReduceKeepsRequest(started, line);
      ReduceKeepsRequest(Reduce(started, line), Completion);
      FinishSendEnds(w, Reduce(Reduce(started, line), Completion), op, Failed(caption));
    }
  }

  lemma SendReplyMoves(w: World, op: OpId, reply: Reply, placeholder: MessageId)
    requires InSend(w, op, AwaitThread)
    ensures Moves(w, SendThreadReply(w, op, reply, placeholder))
  {
    if reply.Rejected? {
      CatchSendEnds(w, op, w.ops[op].ws, reply.error, placeholder);
    } else if !IsCurrentSend(w.store, op, w.ops[op].ws) {
      FinishSendEnds(w, w.store, op, Cancelled);
    }
    StayMoves(w, SendThreadReply(w, op, reply, placeholder));
  }

  lemma AnswerKeepsRequest(s: Store, o: Op, body: ThreadBody, assistant: MessageId)
    requires o.SendOp?
    ensures AnswerStarted(s, o, body, assistant).requestId == s.requestId
  {
  }

  lemma AnswerMoves(w: World, op: OpId, body: ThreadBody, assistant: MessageId, fault: Option<Thrown>)
    requires InSend(w, op, AwaitThreadBody) && IsCurrentSend(w.store, op, w.ops[op].ws) && body.threadId != ""
    ensures var v := SendThreadBody(w, op, body, assistant, fault);
            && KeepsOrClears(w, v) && SameMaps(w, v) && v.nextOp == w.nextOp
            && (v.ops == w.ops - {op} || exists phase :: v.ops == w.ops[op := w.ops[op].(phase := phase)])
  {
    hide AnswerStarted, CatchSend;
    var o := w.ops[op];
    var s := AnswerStarted(w.store, o, body, assistant);
    AnswerKeepsRequest(w.store, o, body, assistant);
    var started := w.(store := s);
    var v := SendThreadBody(w, op, body, assistant, fault);
    if !o.hadMessages && body.listing.Malformed? {
      CatchSendEnds(w.(store := ThreadNamed(w.store, o.ws, body)), op, o.ws, body.listing.error, assistant);
    } else if fault.Some? {
      CatchSendEnds(started, op, o.ws, fault.value, assistant);
    } else {
      assert v.ops == w.ops[op := o.(phase := AwaitOutcome(assistant))];
    }
  }

  lemma SendBodyMoves(w: World, op: OpId, body: ThreadBody, assistant: MessageId, fault: Option<Thrown>)
    requires InSend(w, op, AwaitThreadBody)
    ensures Moves(w, SendThreadBody(w, op, body, assistant, fault))
  {
    hide AnswerStarted, FinishSend, CatchSend, IsCurrentSend, Moves;
    var o := w.ops[op];
    var v := SendThreadBody(w, op, body, assistant, fault);
    if !IsCurrentSend(w.store, op, o.ws) {
      FinishSendEnds(w, w.store, op, Cancelled);
    } else if body.threadId == "" {
      CatchSendEnds(w, op, o.ws, Thrown(false, THREAD_INVALID), assistant);
    } else {
      hide SendThreadBody;
      AnswerMoves(w, op, body, assistant, fault);
    }
    StayMoves(w, v);
  }

  lemma SendOutcomeMoves(w: World, op: OpId, outcome: StreamOutcome, placeholder: MessageId)
    requires op in w.ops && w.ops[op].SendOp? && w.ops[op].phase.AwaitOutcome?
    ensures Moves(w, SendOutcome(w, op, outcome, placeholder))
  {
    hide Moves, CatchSend, FinishSend, IsCurrentSend, Reduce, EndsOp;
    var s := w.store;
    if !IsCurrentSend(s, op, w.ops[op].ws) {
      FinishSendEnds(w, s, op, Cancelled);
    } else {
      match outcome
      case StreamCancelled =>
        FinishSendEnds(w, SyncActive(s, Without(s.messages, w.ops[op].phase.assistant)).(currentAssistant := None), op, Cancelled);
      case StreamFailed(error) => CatchSendEnds(w, op, w.ops[op].ws, Thrown(false, error), placeholder);
      case StreamCompleted =>
        ReduceKeepsRequest(s, Completion);
        var launched := w.ops[op].launched;
        FinishSendEnds(w, Reduce(s, Completion), op, if launched.Some? then Launched(launched.value) else Completed);
    }
    EndMoves(w, SendOutcome(w, op, outcome, placeholder), op);
  }

  lemma DeliverMoves(w: World, op: OpId, item: StreamItem)
    requires op in w.channels
    ensures Moves(w, Deliver(w, op, item))
  {
    var v := Deliver(w, op, item);
    if IsCurrentChannel(w.store, op, w.channels[op]) {
      ReduceKeepsRequest(w.store, ItemEvent(item));
      assert forall i | i in v.ops :: i in w.ops && Continues(w.ops[i], v.ops[i]);
    }
    StayMoves(w, v);
  }

  lemma NewLoadMoves(w: World, v: World, load: Op)
    requires load.LoadOp? && load.requestEpoch == Epoch(w.historyEpochs, load.ws) + 1
    requires v.store == w.store && v.activityEpochs == w.activityEpochs && v.recovering == w.recovering
    requires v.historyEpochs == Bump(w.historyEpochs, load.ws)
    requires v.ops == w.ops[w.nextOp := load] && v.nextOp == w.nextOp + 1 && w.nextOp !in w.ops
    ensures Moves(w, v)
  {
    assert OpsMove(w, v) by { assert forall i | i in w.ops :: v.ops[i] == w.ops[i]; }
    assert EpochsGrow(w, v) by { hide OpsMove; }
    assert LocksMove(w, v) by { hide OpsMove, EpochsGrow; }
  }

  lemma StartLoadMoves(w: World, ws: WorkspaceId, force: bool)
    requires Bounded(w)
    ensures Moves(w, StartLoad(w, ws, force))
  {
    hide IsCached, ReadMessages, Moves;
    if IsCached(w, ws, force) {
      StayMoves(w, w);
    } else {
      var v := StartLoad(w, ws, force);
      NewLoadMoves(w, v, v.ops[w.nextOp]);
    }
  }

  lemma RefreshMoves(w: World, ws: WorkspaceId)
    requires Bounded(w)
    ensures Moves(w, Refresh(w, ws)) && Refresh(w, ws).store == w.store && Refresh(w, ws).recovering == w.recovering
    ensures forall i | i in w.ops :: i in Refresh(w, ws).ops && Refresh(w, ws).ops[i] == w.ops[i]
    ensures forall i | i in Refresh(w, ws).ops && i !in w.ops :: Refresh(w, ws).ops[i].LoadOp?
  {
    StartLoadMoves(w, ws, true);
  }

  /** A recovery that found its history: its turn is over, and a load may have been started. */
  lemma AwaitHistoryMoves(w: World, s: Store, op: OpId, o: Op, result: TurnResult)
    requires Bounded(w) && op in w.ops && w.ops[op].RecoveryOp? && o.RecoveryOp? && o.ws == w.ops[op].ws
    requires !w.ops[op].recovery.AwaitRefresh?
    requires s.requestId == w.store.requestId || s.requestId.None?
    ensures Moves(w, AwaitHistory(w.(store := s), op, o, result))
  {
    var mid := w.(store := s);
    RefreshMoves(mid, o.ws);
    var v := AwaitHistory(mid, op, o, result);
    assert v.ops == Refresh(mid, o.ws).ops[op := v.ops[op]];
    assert v.store == s;
  }

  lemma CatchRecoveryMoves(w: World, op: OpId, o: Op, run: Option<RunId>)
    requires Bounded(w) && op in w.ops && w.ops[op].RecoveryOp? && o.RecoveryOp? && o.ws == w.ops[op].ws
    requires !w.ops[op].recovery.AwaitRefresh?
    ensures Moves(w, CatchRecovery(w, op, o, run))
  {
    var s := w.store;
    var caught := if run.Some? && s.requestId == Some(RecoveryRequest(run.value))
                  then EndRecoveryTurn(SyncActive(s, Without(s.messages, RecoveryMessageId(run.value)))) else s;
    AwaitHistoryMoves(w, caught, op, o, Nothing);
  }

  lemma FinishRecoveryMoves(w: World, op: OpId, result: TurnResult)
    requires op in w.ops && w.ops[op].RecoveryOp?
    ensures Moves(w, FinishRecovery(w, op, w.ops[op].ws, result))
  {
  }

  lemma JoinMoves(w: World, op: OpId, s: Store, run: RunId)
    requires Inv(w) && InRecovery(w, op, AwaitRunList) && run.owner == w.ops[op].ws
    requires s.requestId == Some(RecoveryRequest(run))
    ensures Moves(w, SetOp(w.(store := s, activityEpochs := Bump(w.activityEpochs, run.owner),
                              channels := w.channels[op := RecoveryChannel(run.owner, run)]),
                           op, w.ops[op].(recovery := AwaitRun(run))))
  {
    assert InRecovery(w, op, AwaitRunList);
  }

  lemma BumpedMoves(w: World, bumped: World, v: World)
    requires Moves(bumped, v) && bumped == w.(activityEpochs := bumped.activityEpochs)
    requires forall ws :: Epoch(w.activityEpochs, ws) <= Epoch(bumped.activityEpochs, ws)
    ensures Moves(w, v)
  {
  }

  /** Catching the failure to join gives up the turn that has just begun. */
  lemma CatchBegunTurn(w: World, op: OpId, o: Op, run: RunId, s: Store)
    requires o.RecoveryOp? && s.requestId == Some(RecoveryRequest(run))
    ensures CatchRecovery(w.(store := s), op, o, Some(run)) ==
            AwaitHistory(w.(store := EndRecoveryTurn(SyncActive(s, Without(s.messages, RecoveryMessageId(run))))), op, o, Nothing)
  {
  }

  /** The turn begun and given up in the same segment, because its stream could not be opened. */
  lemma UnjoinedMoves(w: World, op: OpId, run: RunId)
    requires Inv(w) && InRecovery(w, op, AwaitRunList) && MayRecover(w, w.ops[op].ws) && run.owner == w.ops[op].ws
    ensures var begun := w.(store := BeginRecoveryTurn(w.store, run.owner, run), activityEpochs := Bump(w.activityEpochs, run.owner));
            Moves(w, CatchRecovery(begun, op, w.ops[op], Some(run)))
  {
    BeginTurnFacts(w.store, run.owner, run);
    var bumped := w.(activityEpochs := Bump(w.activityEpochs, run.owner));
    var s := BeginRecoveryTurn(w.store, run.owner, run);
    var o := w.ops[op];
    var ended := EndRecoveryTurn(SyncActive(s, Without(s.messages, RecoveryMessageId(run))));
    AwaitHistoryMoves(bumped, ended, op, o, Nothing);
    BumpedMoves(w, bumped, AwaitHistory(bumped.(store := ended), op, o, Nothing));
    CatchBegunTurn(bumped, op, o, run, s);
  }

  lemma RunListMoves(w: World, op: OpId, runs: seq<Run>, joins: bool)
    requires Inv(w) && InRecovery(w, op, AwaitRunList)
    requires forall r | r in runs :: r.id.owner == w.ops[op].ws
    ensures Moves(w, RecoveryRunList(w, op, runs, joins))
  {
    var o := w.ops[op];
    var latest := LatestActive(runs);
    if latest.None? || !MayRecover(w, o.ws) {
      FinishRecoveryMoves(w, op, Nothing);
    } else if !joins {
      UnjoinedMoves(w, op, latest.value.id);
    } else {
      BeginTurnFacts(w.store, o.ws, latest.value.id);
      JoinMoves(w, op, BeginRecoveryTurn(w.store, o.ws, latest.value.id).(stream := Some(op)), latest.value.id);
    }
  }

  lemma RecoveryOutcomeMoves(w: World, op: OpId, outcome: Option<StreamOutcome>)
    requires Bounded(w) && op in w.ops && w.ops[op].RecoveryOp? && w.ops[op].recovery.AwaitRun?
    ensures Moves(w, RecoveryOutcome(w, op, outcome))
  {
    var o := w.ops[op];
    if outcome.None? {
      CatchRecoveryMoves(w, op, o, Some(o.recovery.run));
    } else if !IsCurrentRecovery(w.store, o.ws, o.recovery.run) {
      FinishRecoveryMoves(w, op, Nothing);
    } else {
      var result := match outcome.value
                    case StreamCompleted => if o.launched.Some? then Launched(o.launched.value) else Completed
                    case StreamFailed(error) => Failed(error)
                    case StreamCancelled => Cancelled;
      AwaitHistoryMoves(w, EndRecoveryTurn(w.store), op, o, result);
    }
  }

  lemma SetActiveKeepsTheRest(w: World, ws: WorkspaceId)
    ensures var v := SetActiveWorkspace(w, ws);
            v == w.(store := v.store, aborted := v.aborted) && v.store.active == Some(ws)
  {
  }

  lemma StartSendMoves(w: World, ws: WorkspaceId, content: string, hasAttachments: bool, userMessage: MessageId)
    requires Bounded(w)
    ensures Moves(w, StartSend(w, ws, content, hasAttachments, userMessage))
  {
    hide SetActiveWorkspace, ReadMessages, Reduce, AcceptsSend;
    var v := StartSend(w, ws, content, hasAttachments, userMessage);
    if AcceptsSend(w, content, hasAttachments) {
      SetActiveKeepsTheRest(w, ws);
      var begun := SetActiveWorkspace(w, ws).store.(isSending := true, requestId := Some(SendRequest(w.nextOp)),
                                                    requestWorkspace := Some(ws), abortController := Some(w.nextOp));
      ReduceKeepsRequest(begun, UserMessage(userMessage, content, []));
    }
  }

  lemma EventMoves(w: World, e: Event, ws: Option<WorkspaceId>)
    ensures Moves(w, HandleEvent(w, e, ws))
  {
    var shown := if ws.Some? then SetActiveWorkspace(w, ws.value) else w;
    ReduceKeepsRequest(shown.store, e);
    StayMoves(w, HandleEvent(w, e, ws));
  }

  lemma HydratingKeepsRequest(s: Store, ws: WorkspaceId, body: ThreadBody)
    ensures var named := ThreadNamed(s, ws, body);
            named.requestId == s.requestId && Hydrate(named, ws, Loaded(body)).requestId == s.requestId
  {
    hide Loaded;
  }

  lemma FinishLoadMoves(w: World, op: OpId, body: Option<ThreadBody>)
    requires op in w.ops && w.ops[op].LoadOp?
    ensures Moves(w, FinishLoad(w, op, body))
  {
    hide Moves, CanHydrate, Loaded, ThreadNamed, Hydrate;
    if body.Some? {
      HydratingKeepsRequest(w.store, w.ops[op].ws, body.value);
    }
    EndMoves(w, FinishLoad(w, op, body), op);
  }

  lemma RunsReplyMoves(w: World, op: OpId, reply: Reply)
    requires Bounded(w) && InRecovery(w, op, AwaitRuns)
    ensures Moves(w, RecoveryRunsReply(w, op, reply))
  {
    match reply
    case Rejected(_) => CatchRecoveryMoves(w, op, w.ops[op], None);
    case NotOk => FinishRecoveryMoves(w, op, Nothing);
    case Ok => StayMoves(w, RecoveryRunsReply(w, op, reply));
  }

  lemma SendStepMoves(w: World, a: Action)
    requires Enabled(w, a) && OfASend(a)
    ensures Moves(w, Step(w, a))
  {
    match a
    case SendThreadReplied(op, reply, spare) => SendReplyMoves(w, op, reply, spare);
    case SendErrorRead(op, error, spare) =>
      CatchSendEnds(w, op, w.ops[op].ws, error, spare);
      StayMoves(w, CatchSend(w, op, w.ops[op].ws, error, spare));
    case SendBodyRead(op, body, spare, fault) => SendBodyMoves(w, op, body, spare, fault);
    case SendBodyRejected(op, error, spare) =>
      CatchSendEnds(w, op, w.ops[op].ws, error, spare);
      StayMoves(w, CatchSend(w, op, w.ops[op].ws, error, spare));
    case SendStreamEnded(op, outcome, spare) => SendOutcomeMoves(w, op, outcome, spare);
  }

  lemma RecoveryStepMoves(w: World, a: Action)
    requires Inv(w) && Enabled(w, a) && OfARecovery(a)
    ensures Moves(w, Step(w, a))
  {
    match a
    case RecoveryRunsReplied(op, reply) => RunsReplyMoves(w, op, reply);
    case RecoveryRunsRead(op, runs, joins) => RunListMoves(w, op, runs, joins);
    case RecoveryRunsRejected(op) => CatchRecoveryMoves(w, op, w.ops[op], None);
    case RecoveryStreamEnded(op, ended) => RecoveryOutcomeMoves(w, op, ended);
    case RecoveryRefreshed(op) => FinishRecoveryMoves(w, op, w.ops[op].recovery.result);
  }

  lemma StartRecoveryMoves(w: World, ws: WorkspaceId, provided: Option<string>)
    requires Bounded(w)
    ensures Moves(w, StartRecovery(w, ws, provided))
  {
    hide ChosenThread, MayRecover;
    var v := StartRecovery(w, ws, provided);
    if v == w {
      StayMoves(w, w);
    } else {
      assert v.ops == w.ops[w.nextOp := v.ops[w.nextOp]] && v.nextOp == w.nextOp + 1 && w.nextOp !in w.ops;
      hide StartRecovery;
      assert OpsMove(w, v);
      assert LocksMove(w, v) by { hide OpsMove; }
    }
  }

  lemma StepMoves(w: World, a: Action)
    requires Inv(w) && a != DoReset
    ensures Moves(w, Step(w, a))
  {
    if !Enabled(w, a) {
      StayMoves(w, w);
    } else if OfASend(a) {
      SendStepMoves(w, a);
    } else if OfARecovery(a) {
      RecoveryStepMoves(w, a);
    } else {
      match a
      case DoActivate(ws) => StayMoves(w, SetActiveWorkspace(w, ws));
      case DoEvent(event, target) => EventMoves(w, event, target);
      case DoStop => StayMoves(w, Stop(w));
      case DoLoad(ws, force) => StartLoadMoves(w, ws, force);
      case LoadReplied(op, thread) => FinishLoadMoves(w, op, thread);
      case DoRefresh(ws) => RefreshMoves(w, ws);
      case RefreshSettled(ws, op) => StayMoves(w, ClearRefresh(w, ws, op));
      case DoSend(ws, content, has, user) => StartSendMoves(w, ws, content, has, user);
      case Callback(op, item) => DeliverMoves(w, op, item);
      case DoRecover(ws, provided) => StartRecoveryMoves(w, ws, provided);
    }
  }
}
