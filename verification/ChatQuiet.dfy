/**
 * When the history of a workspace is shown: a load hydrates exactly if, since it was requested, no turn has
 * begun in its workspace and no other load of it was requested.
 */
module ChatQuiet {
  import opened Wrappers
  import opened ChatProtocol
  import opened ChatInvariants
  import opened ChatEffects
  import opened ChatTurns

  /** Apart from another load of `ws`, nothing happened that would keep a load of it from hydrating. */
  predicate Undisturbed(w: World, v: World, ws: WorkspaceId) {
    && Epoch(v.activityEpochs, ws) == Epoch(w.activityEpochs, ws)
    && (Epoch(v.historyEpochs, ws) == Epoch(w.historyEpochs, ws) || LoadAdded(w, v, ws))
    && (v.store.requestWorkspace == Some(ws) ==> w.store.requestWorkspace == Some(ws))
  }

  /** The epochs stand, and the record gets no new request workspace. */
  predicate Settles(w: World, v: World) {
    && v.activityEpochs == w.activityEpochs && v.historyEpochs == w.historyEpochs
    && (v.store.requestWorkspace == w.store.requestWorkspace || v.store.requestWorkspace.None?)
  }

  lemma SettlingUndisturbs(w: World, v: World, ws: WorkspaceId)
    requires Settles(w, v)
    ensures Undisturbed(w, v, ws)
  {
    hide LoadAdded;
  }

  // ---------- Sends ----------

  lemma ReduceKeepsWorkspace(s: Store, e: Event)
    ensures Reduce(s, e).requestWorkspace == s.requestWorkspace
  {
  }

  lemma FinishSettles(w: World, op: OpId, result: TurnResult)
    ensures Settles(w, FinishSend(w, op, result))
  {
  }

  lemma CatchSettles(w: World, op: OpId, ws: WorkspaceId, error: Thrown, spare: MessageId)
    ensures Settles(w, CatchSend(w, op, ws, error, spare))
  {
    hide Reduce, FinishSend, IsCurrentSend, ErrorCaption;
    if !IsCurrentSend(w.store, op, ws) || error.isAbort {
      FinishSettles(w, op, Cancelled);
    } else {
      var line := AssistantBlock(StatusLine(ErrorCaption(error), SEND_ERROR_RUN, "error", ""));
      var started := if w.store.currentAssistant.None? then Reduce(w.store, AssistantStart(spare)) else w.store;
      ReduceKeepsWorkspace(w.store, AssistantStart(spare));
      ReduceKeepsWorkspace(started, line);
      ReduceKeepsWorkspace(Reduce(started, line), Completion);
      FinishSettles(w.(store := Reduce(Reduce(started, line), Completion)), op, Failed(ErrorCaption(error)));
    }
  }

  lemma AnswerKeepsWorkspace(s: Store, o: Op, body: ThreadBody, assistant: MessageId)
    requires o.SendOp?
    ensures AnswerStarted(s, o, body, assistant).requestWorkspace == s.requestWorkspace
  {
  }

  lemma BodySettles(w: World, op: OpId, body: ThreadBody, assistant: MessageId, fault: Option<Thrown>)
    requires InSend(w, op, AwaitThreadBody)
    ensures Settles(w, SendThreadBody(w, op, body, assistant, fault))
  {
    hide FinishSend, CatchSend, IsCurrentSend, AnswerStarted;
    var o := w.ops[op];
    FinishSettles(w, op, Cancelled);
    CatchSettles(w, op, o.ws, Thrown(false, THREAD_INVALID), assistant);
    if body.listing.Malformed? {
      CatchSettles(w.(store := ThreadNamed(w.store, o.ws, body)), op, o.ws, body.listing.error, assistant);
    }
    AnswerKeepsWorkspace(w.store, o, body, assistant);
    if fault.Some? {
      CatchSettles(w.(store := AnswerStarted(w.store, o, body, assistant)), op, o.ws, fault.value, assistant);
    }
  }

  lemma OutcomeSettles(w: World, op: OpId, outcome: StreamOutcome, spare: MessageId)
    requires op in w.ops && w.ops[op].SendOp? && w.ops[op].phase.AwaitOutcome?
    ensures Settles(w, SendOutcome(w, op, outcome, spare))
  {
    hide FinishSend, CatchSend, IsCurrentSend, Without, Reduce;
    var o := w.ops[op];
    FinishSettles(w, op, Cancelled);
    match outcome
    case StreamCancelled =>
      FinishSettles(w.(store := SyncActive(w.store, Without(w.store.messages, o.phase.assistant))
                                .(currentAssistant := None)), op, Cancelled);
    case StreamFailed(error) => CatchSettles(w, op, o.ws, Thrown(false, error), spare);
    case StreamCompleted =>
      ReduceKeepsWorkspace(w.store, Completion);
      FinishSettles(w.(store := Reduce(w.store, Completion)), op,
                    if o.launched.Some? then Launched(o.launched.value) else Completed);
  }

  lemma ReplySettles(w: World, op: OpId, reply: Reply, spare: MessageId)
    requires InSend(w, op, AwaitThread) && !reply.Rejected?
    ensures Settles(w, SendThreadReply(w, op, reply, spare))
  {
    hide FinishSend, IsCurrentSend;
    FinishSettles(w, op, Cancelled);
  }

  lemma SendStepSettles(w: World, a: Action)
    requires Enabled(w, a) && OfASend(a)
    ensures Settles(w, Step(w, a))
  {
    hide Settles, FinishSend, CatchSend, SendThreadBody, SendOutcome, IsCurrentSend;
    match a
    case SendThreadReplied(op, reply, spare) =>
      if reply.Rejected? { CatchSettles(w, op, w.ops[op].ws, reply.error, spare); }
      else { ReplySettles(w, op, reply, spare); }
    case SendErrorRead(op, error, spare) => CatchSettles(w, op, w.ops[op].ws, error, spare);
    case SendBodyRead(op, body, spare, fault) => BodySettles(w, op, body, spare, fault);
    case SendBodyRejected(op, error, spare) => CatchSettles(w, op, w.ops[op].ws, error, spare);
    case SendStreamEnded(op, outcome, spare) => OutcomeSettles(w, op, outcome, spare);
  }

  lemma StartSendUndisturbs(w: World, target: WorkspaceId, content: string, has: bool, user: MessageId, ws: WorkspaceId)
    requires !BeginsTurn(w, DoSend(target, content, has, user), ws)
    ensures Undisturbed(w, StartSend(w, target, content, has, user), ws)
  {
    hide Activate, Reduce, ReadMessages, AcceptsSend, LoadAdded;
    if AcceptsSend(w, content, has) {
      var begun := SetActiveWorkspace(w, target).store.(isSending := true, requestId := Some(SendRequest(w.nextOp)),
                                                        requestWorkspace := Some(target), abortController := Some(w.nextOp));
      ReduceKeepsWorkspace(begun, UserMessage(user, content, []));
    }
  }

  // ---------- Loads and recoveries ----------

  lemma LoadUndisturbs(w: World, target: WorkspaceId, force: bool, ws: WorkspaceId)
    requires Bounded(w)
    ensures Undisturbed(w, StartLoad(w, target, force), ws)
  {
    hide IsCached, ReadMessages;
    var v := StartLoad(w, target, force);
    if v != w && target == ws {
      assert w.nextOp in v.ops && w.nextOp !in w.ops;
    }
  }

  lemma RefreshUndisturbs(w: World, target: WorkspaceId, ws: WorkspaceId)
    requires Bounded(w)
    ensures Undisturbed(w, Refresh(w, target), ws)
  {
    hide StartLoad;
    LoadUndisturbs(w, target, true, ws);
    if target !in w.refreshing {
      assert Refresh(w, target).ops == StartLoad(w, target, true).ops;
    }
  }

  lemma RefreshKeepsWorkspace(w: World, ws: WorkspaceId)
    ensures Refresh(w, ws).store == w.store
  {
  }

  lemma AwaitUndisturbs(w: World, u: World, op: OpId, o: Op, result: TurnResult, ws: WorkspaceId)
    requires Bounded(w) && op in w.ops && w.ops[op].RecoveryOp? && o.RecoveryOp?
    requires u == w.(store := u.store) && (u.store.requestWorkspace == w.store.requestWorkspace || u.store.requestWorkspace.None?)
    ensures Undisturbed(w, AwaitHistory(u, op, o, result), ws)
  {
    hide Refresh;
    RefreshUndisturbs(u, o.ws, ws);
    RefreshKeepsWorkspace(u, o.ws);
    var loaded, v := Refresh(u, o.ws), AwaitHistory(u, op, o, result);
    if LoadAdded(u, loaded, ws) {
      var j :| j in loaded.ops && j !in u.ops && loaded.ops[j].LoadOp? && loaded.ops[j].ws == ws;
      assert j in v.ops && v.ops[j] == loaded.ops[j] && j !in w.ops;
    }
  }

  lemma CatchRecoveryUndisturbs(w: World, op: OpId, o: Op, run: Option<RunId>, ws: WorkspaceId)
    requires Bounded(w) && op in w.ops && w.ops[op].RecoveryOp? && o.RecoveryOp?
    ensures Undisturbed(w, CatchRecovery(w, op, o, run), ws)
  {
    hide AwaitHistory, Without, Undisturbed;
    var s := w.store;
    var caught := if run.Some? && s.requestId == Some(RecoveryRequest(run.value))
                  then EndRecoveryTurn(SyncActive(s, Without(s.messages, RecoveryMessageId(run.value)))) else s;
    AwaitUndisturbs(w, w.(store := caught), op, o, Nothing, ws);
  }

  lemma RunsReplyUndisturbs(w: World, op: OpId, reply: Reply, ws: WorkspaceId)
    requires Bounded(w) && InRecovery(w, op, AwaitRuns)
    ensures Undisturbed(w, RecoveryRunsReply(w, op, reply), ws)
  {
    hide CatchRecovery, LoadAdded;
    if reply.Rejected? {
      CatchRecoveryUndisturbs(w, op, w.ops[op], None, ws);
    }
  }

  lemma BegunKeepsOthers(w: World, run: RunId, ws: WorkspaceId)
    requires run.owner != ws
    ensures var v := w.(store := BeginRecoveryTurn(w.store, run.owner, run), activityEpochs := Bump(w.activityEpochs, run.owner));
            Undisturbed(w, v, ws) && v.store.requestWorkspace == Some(run.owner)
  {
    hide LoadAdded;
  }

  lemma UnjoinedUndisturbs(w: World, op: OpId, run: RunId, ws: WorkspaceId)
    requires Bounded(w) && InRecovery(w, op, AwaitRunList) && w.ops[op].ws == run.owner && run.owner != ws
    ensures var begun := w.(store := BeginRecoveryTurn(w.store, run.owner, run),
                            activityEpochs := Bump(w.activityEpochs, run.owner));
            Undisturbed(w, CatchRecovery(begun, op, w.ops[op], Some(run)), ws)
  {
    hide BeginRecoveryTurn, CatchRecovery;
    var begun := w.(store := BeginRecoveryTurn(w.store, run.owner, run), activityEpochs := Bump(w.activityEpochs, run.owner));
    BegunKeepsOthers(w, run, ws);
    CatchRecoveryUndisturbs(begun, op, w.ops[op], Some(run), ws);
  }

  lemma RunListUndisturbs(w: World, op: OpId, runs: seq<Run>, joins: bool, ws: WorkspaceId)
    requires Bounded(w) && Enabled(w, RecoveryRunsRead(op, runs, joins))
    requires !BeginsTurn(w, RecoveryRunsRead(op, runs, joins), ws)
    ensures Undisturbed(w, RecoveryRunList(w, op, runs, joins), ws)
  {
    hide LatestActive, BeginRecoveryTurn, CatchRecovery, LoadAdded;
    var o := w.ops[op];
    var latest := LatestActive(runs);
    if latest.Some? && MayRecover(w, o.ws) {
      var run := latest.value.id;
      BegunKeepsOthers(w, run, ws);
      UnjoinedUndisturbs(w, op, run, ws);
    }
  }

  lemma RecoveryOutcomeUndisturbs(w: World, op: OpId, outcome: Option<StreamOutcome>, ws: WorkspaceId)
    requires Bounded(w) && op in w.ops && w.ops[op].RecoveryOp? && w.ops[op].recovery.AwaitRun?
    ensures Undisturbed(w, RecoveryOutcome(w, op, outcome), ws)
  {
    hide CatchRecovery, AwaitHistory, IsCurrentRecovery, LoadAdded;
    var o := w.ops[op];
    if outcome.None? {
      CatchRecoveryUndisturbs(w, op, o, Some(o.recovery.run), ws);
    } else if IsCurrentRecovery(w.store, o.ws, o.recovery.run) {
      var result := match outcome.value
                    case StreamCompleted => if o.launched.Some? then Launched(o.launched.value) else Completed
                    case StreamFailed(error) => Failed(error)
                    case StreamCancelled => Cancelled;
      AwaitUndisturbs(w, w.(store := EndRecoveryTurn(w.store)), op, o, result, ws);
    }
  }

  lemma ReturnSettles(w: World, op: OpId)
    requires Enabled(w, RecoveryRefreshed(op))
    ensures Settles(w, Step(w, RecoveryRefreshed(op)))
  {
  }

  lemma RecoveryStepUndisturbs(w: World, a: Action, ws: WorkspaceId)
    requires Bounded(w) && Enabled(w, a) && OfARecovery(a) && !BeginsTurn(w, a, ws)
    ensures Undisturbed(w, Step(w, a), ws)
  {
    hide Undisturbed, BeginsTurn, CatchRecovery, RecoveryRunsReply, RecoveryRunList, RecoveryOutcome;
    match a
    case RecoveryRunsReplied(op, reply) => RunsReplyUndisturbs(w, op, reply, ws);
    case RecoveryRunsRead(op, runs, joins) => RunListUndisturbs(w, op, runs, joins, ws);
    case RecoveryRunsRejected(op) => CatchRecoveryUndisturbs(w, op, w.ops[op], None, ws);
    case RecoveryStreamEnded(op, ended) => RecoveryOutcomeUndisturbs(w, op, ended, ws);
    case RecoveryRefreshed(op) =>
      ReturnSettles(w, op);
      SettlingUndisturbs(w, Step(w, a), ws);
  }

  // ---------- Every segment ----------

  lemma ActivateSettles(s: Store, ws: WorkspaceId)
    ensures Activate(s, ws).requestWorkspace == s.requestWorkspace || Activate(s, ws).requestWorkspace.None?
  {
    hide WithoutPlaceholder;
  }

  lemma EventSettles(w: World, e: Event, target: Option<WorkspaceId>)
    ensures Settles(w, HandleEvent(w, e, target))
  {
    hide Activate, Reduce;
    if target.Some? {
      ActivateSettles(w.store, target.value);
    }
    ReduceKeepsWorkspace(if target.Some? then Activate(w.store, target.value) else w.store, e);
  }

  lemma FinishLoadSettles(w: World, op: OpId, body: Option<ThreadBody>)
    requires op in w.ops && w.ops[op].LoadOp?
    ensures Settles(w, FinishLoad(w, op, body))
  {
    hide CanHydrate;
  }

  lemma DeliverSettles(w: World, op: OpId, item: StreamItem)
    requires op in w.channels
    ensures Settles(w, Deliver(w, op, item))
  {
    hide Reduce, IsCurrentChannel, NoteLaunch;
    ReduceKeepsWorkspace(w.store, ItemEvent(item));
  }

  lemma StartRecoverySettles(w: World, ws: WorkspaceId, provided: Option<string>)
    ensures Settles(w, StartRecovery(w, ws, provided))
  {
    hide ChosenThread;
  }

  lemma OtherSettles(w: World, a: Action)
    requires Enabled(w, a) && !OfASend(a) && !OfARecovery(a)
    requires !a.DoReset? && !a.DoLoad? && !a.DoRefresh? && !a.DoSend?
    ensures Settles(w, Step(w, a))
  {
    hide Activate, HandleEvent, FinishLoad, Deliver, StartRecovery;
    match a
    case DoActivate(ws) => ActivateSettles(w.store, ws);
    case DoEvent(event, target) => EventSettles(w, event, target);
    case DoStop =>
    case LoadReplied(op, thread) => FinishLoadSettles(w, op, thread);
    case RefreshSettled(ws, op) =>
    case Callback(op, item) => DeliverSettles(w, op, item);
    case DoRecover(ws, provided) => StartRecoverySettles(w, ws, provided);
  }

  lemma StepUndisturbs(w: World, a: Action, ws: WorkspaceId)
    requires Bounded(w) && a != DoReset && !BeginsTurn(w, a, ws)
    ensures Undisturbed(w, Step(w, a), ws)
  {
    if !Enabled(w, a) {
      SettlingUndisturbs(w, w, ws);
    } else if OfASend(a) {
      hide Undisturbed, BeginsTurn;
      SendStepSettles(w, a);
      SettlingUndisturbs(w, Step(w, a), ws);
    } else if OfARecovery(a) {
      hide Undisturbed;
      RecoveryStepUndisturbs(w, a, ws);
    } else {
      hide Undisturbed, StartLoad, Refresh, StartSend;
      match a
      case DoLoad(target, force) => LoadUndisturbs(w, target, force, ws);
      case DoRefresh(target) => RefreshUndisturbs(w, target, ws);
      case DoSend(target, content, has, user) => StartSendUndisturbs(w, target, content, has, user, ws);
      case _ =>
        OtherSettles(w, a);
        SettlingUndisturbs(w, Step(w, a), ws);
    }
  }

  // ---------- Every run ----------

  /** No other load of `ws` is requested during the run. */
  predicate Latest(w: World, actions: seq<Action>, ws: WorkspaceId)
    decreases |actions|
  {
    actions != [] ==>
      !LoadAdded(w, Step(w, actions[0]), ws) && Latest(Step(w, actions[0]), actions[1..], ws)
  }

  /** No turn begins in `ws` during the run. */
  predicate TurnFree(w: World, actions: seq<Action>, ws: WorkspaceId)
    decreases |actions|
  {
    actions != [] ==>
      !BeginsTurn(w, actions[0], ws) && TurnFree(Step(w, actions[0]), actions[1..], ws)
  }

  /** While it is pending, operation `i` is this load. */
  predicate IsLoad(w: World, i: OpId, load: Op) {
    load.LoadOp? && i < w.nextOp && (i in w.ops ==> w.ops[i] == load)
  }

  lemma StepKeepsLoad(w: World, a: Action, i: OpId, load: Op)
    requires Inv(w) && IsLoad(w, i, load)
    ensures Inv(Step(w, a)) && IsLoad(Step(w, a), i, load)
  {
    StepKeepsInv(w, a);
    if a != DoReset {
      hide Step;
      StepMoves(w, a);
    }
  }

  lemma {:induction false} PlayKeepsLoad(w: World, actions: seq<Action>, i: OpId, load: Op)
    requires Inv(w) && IsLoad(w, i, load)
    ensures Inv(Play(w, actions)) && IsLoad(Play(w, actions), i, load)
    decreases |actions|
  {
    hide Step, Inv, IsLoad;
    if actions != [] {
      StepKeepsLoad(w, actions[0], i, load);
      PlayKeepsLoad(Step(w, actions[0]), actions[1..], i, load);
    }
  }

  /** Starting a turn requests no load of another epoch than the ones it adds. */
  lemma TurnKeepsEpoch(w: World, a: Action, ws: WorkspaceId)
    requires Bounded(w) && BeginsTurn(w, a, ws) && !LoadAdded(w, Step(w, a), ws)
    ensures Epoch(Step(w, a).historyEpochs, ws) == Epoch(w.historyEpochs, ws)
  {
    if a.RecoveryRunsRead? {
      hide BeginRecoveryTurn, CatchRecovery, LatestActive;
      var run := LatestActive(a.runs).value.id;
      var begun := w.(store := BeginRecoveryTurn(w.store, ws, run), activityEpochs := Bump(w.activityEpochs, ws));
      if !a.joins {
        CatchRecoveryUndisturbs(begun, a.op, w.ops[a.op], Some(run), ws);
        assert Step(w, a) == CatchRecovery(begun, a.op, w.ops[a.op], Some(run));
      }
    }
  }

  lemma StepKeepsEpoch(w: World, a: Action, ws: WorkspaceId)
    requires Bounded(w) && a != DoReset && !LoadAdded(w, Step(w, a), ws)
    ensures Epoch(Step(w, a).historyEpochs, ws) == Epoch(w.historyEpochs, ws)
  {
    if BeginsTurn(w, a, ws) {
      TurnKeepsEpoch(w, a, ws);
    } else {
      hide Step, LoadAdded, BeginsTurn;
      StepUndisturbs(w, a, ws);
    }
  }

  lemma StepRaisesEpoch(w: World, a: Action, ws: WorkspaceId)
    requires Inv(w) && a != DoReset && LoadAdded(w, Step(w, a), ws)
    ensures Epoch(Step(w, a).historyEpochs, ws) > Epoch(w.historyEpochs, ws)
  {
    hide Step;
    StepMoves(w, a);
  }

  /** The request epoch of a workspace tells whether one of its loads was requested. */
  lemma {:induction false} EpochTellsLatest(w: World, actions: seq<Action>, ws: WorkspaceId)
    requires Inv(w) && DoReset !in actions
    ensures Epoch(Play(w, actions).historyEpochs, ws) >= Epoch(w.historyEpochs, ws)
    ensures Latest(w, actions, ws) <==> Epoch(Play(w, actions).historyEpochs, ws) == Epoch(w.historyEpochs, ws)
    decreases |actions|
  {
    hide Step, Inv, LoadAdded;
    if actions != [] {
      var a, next := actions[0], Step(w, actions[0]);
      assert Bounded(w) by { InvBounds(w); }
      StepKeepsInv(w, a);
      EpochTellsLatest(next, actions[1..], ws);
      if LoadAdded(w, next, ws) {
        StepRaisesEpoch(w, a, ws);
      } else {
        StepKeepsEpoch(w, a, ws);
      }
    }
  }

  /** A turn raises the activity epoch, and nothing else changes it. */
  lemma StepCountsTurns(w: World, a: Action, ws: WorkspaceId)
    requires Inv(w) && a != DoReset
    ensures Epoch(Step(w, a).activityEpochs, ws) == Epoch(w.activityEpochs, ws) + if BeginsTurn(w, a, ws) then 1 else 0
  {
    hide Step, BeginsTurn;
    assert Bounded(w) by { InvBounds(w); }
    if BeginsTurn(w, a, ws) {
      TurnBumps(w, a, ws);
    } else {
      hide LoadAdded;
      StepUndisturbs(w, a, ws);
    }
  }

  /** The activity epoch of a workspace tells whether a turn began in it. */
  lemma {:induction false} EpochTellsTurns(w: World, actions: seq<Action>, ws: WorkspaceId)
    requires Inv(w) && DoReset !in actions
    ensures Epoch(Play(w, actions).activityEpochs, ws) >= Epoch(w.activityEpochs, ws)
    ensures TurnFree(w, actions, ws) <==> Epoch(Play(w, actions).activityEpochs, ws) == Epoch(w.activityEpochs, ws)
    decreases |actions|
  {
    hide Step, Inv, BeginsTurn;
    if actions != [] {
      StepKeepsInv(w, actions[0]);
      StepCountsTurns(w, actions[0], ws);
      EpochTellsTurns(Step(w, actions[0]), actions[1..], ws);
    }
  }

  // ---------- What a load does ----------

  /** What switching to a workspace would show is what is read of it. */
  lemma ReadingIsShowing(s: Store, ws: WorkspaceId)
    requires Consistent(s)
    ensures ReadMessages(s, ws) == Activate(s, ws).messages
  {
  }

  /** The workspace has nothing to show, so an unforced load of it may show the history. */
  predicate MayShow(s: Store, ws: WorkspaceId, force: bool) {
    force || Activate(s, ws).messages == []
  }

  /** No thread is known for the workspace, or the load is made regardless. */
  predicate IsNeeded(s: Store, ws: WorkspaceId, force: bool) {
    force || ws !in s.threadIds || s.threadIds[ws] == ""
  }

  lemma NeededLoadStarts(w: World, ws: WorkspaceId, force: bool)
    requires Bounded(w) && IsNeeded(w.store, ws, force)
    ensures var u := Step(w, DoLoad(ws, force));
            && u.nextOp == w.nextOp + 1 && w.nextOp in u.ops && u.store == w.store
            && Epoch(u.activityEpochs, ws) == Epoch(w.activityEpochs, ws)
            && u.ops[w.nextOp] == LoadOp(ws, force || ReadMessages(w.store, ws) == [],
                                         Epoch(u.activityEpochs, ws), Epoch(u.historyEpochs, ws))
  {
    hide ReadMessages;
    var u := Step(w, DoLoad(ws, force));
    assert u == StartLoad(w, ws, force) && !IsCached(w, ws, force);
    hide Step;
  }

  lemma LoadStarts(w: World, ws: WorkspaceId, force: bool)
    requires Inv(w)
    ensures var u := Step(w, DoLoad(ws, force));
            if IsNeeded(w.store, ws, force) then
              && u.nextOp == w.nextOp + 1 && w.nextOp in u.ops && u.store == w.store
              && Epoch(u.activityEpochs, ws) == Epoch(w.activityEpochs, ws)
              && u.ops[w.nextOp] == LoadOp(ws, MayShow(w.store, ws, force), Epoch(u.activityEpochs, ws), Epoch(u.historyEpochs, ws))
            else u == w
  {
    ReadingIsShowing(w.store, ws);
    hide ReadMessages, Activate;
    if IsNeeded(w.store, ws, force) {
      assert Bounded(w);
      hide Inv, Step, IsNeeded;
      NeededLoadStarts(w, ws, force);
    }
  }

  /** A workspace whose thread is known is loaded only if the load is forced. */
  lemma KnownThreadIsNotLoaded(w: World, ws: WorkspaceId, force: bool)
    requires Inv(w)
    ensures Step(w, DoLoad(ws, force)) == w <==> !force && ws in w.store.threadIds && w.store.threadIds[ws] != ""
  {
    hide MayShow;
    LoadStarts(w, ws, force);
  }

  /** The record once `ws` shows the history of its thread. */
  function Shown(s: Store, ws: WorkspaceId, thread: ThreadBody): Store {
    var list := if thread.listing.Listed? then thread.listing.messages else [];
    var stored, threads := s.stored[KeyOf(ws) := list], s.threadIds[ws := thread.threadId];
    if s.active.Some? && s.active != Some(ws) then s.(stored := stored, threadIds := threads)
    else Store(Some(ws), stored, threads, list, None, s.isSending, s.requestId, s.requestWorkspace,
               s.abortController, s.stream, {})
  }

  lemma LoadEnds(v: World, i: OpId, load: Op, reply: Option<ThreadBody>)
    requires i in v.ops && v.ops[i] == load && load.LoadOp?
    ensures var t := Step(v, LoadReplied(i, reply)).store;
            if reply.None? || reply.value.threadId == "" || Epoch(v.historyEpochs, load.ws) != load.requestEpoch
               || (load.hydrate && reply.value.listing.Malformed?) then
              t == v.store
            else if load.hydrate && Epoch(v.activityEpochs, load.ws) == load.activityEpoch
                    && v.store.requestWorkspace != Some(load.ws) then
              t == Shown(v.store, load.ws, reply.value)
            else t == v.store.(threadIds := v.store.threadIds[load.ws := reply.value.threadId])
  {
  }

  /** What a hydrated workspace shows. */
  lemma HydratedListIsShown(s: Store, ws: WorkspaceId, loaded: seq<Message>)
    ensures var t := Hydrate(s, ws, loaded);
            && StoredMessages(t, KeyOf(ws)) == loaded
            && (s.active.None? || s.active == Some(ws) ==> t.messages == loaded && t.active == Some(ws))
            && (s.active.Some? && s.active != Some(ws) ==> t.messages == s.messages && t.active == s.active)
            && forall key | key != KeyOf(ws) :: StoredMessages(t, key) == StoredMessages(s, key)
  {
  }

  /**
   What the answer to a load does, over any reset-free run between its request and its answer. If it failed, names no thread, or
   another load of the workspace was requested, nothing. Otherwise it shows the messages exactly if the load is forced or the
   workspace had nothing to show when it was made, no turn began in the workspace since, and none runs there now; and else
   it records the thread and changes nothing more.
   */
  lemma LoadHydratesIffQuiet(w: World, ws: WorkspaceId, force: bool, actions: seq<Action>, reply: Option<ThreadBody>)
    requires Inv(w) && IsNeeded(w.store, ws, force) && DoReset !in actions
    requires w.nextOp in Play(Step(w, DoLoad(ws, force)), actions).ops
    ensures var u := Step(w, DoLoad(ws, force));
            var v := Play(u, actions);
            var t := Step(v, LoadReplied(w.nextOp, reply)).store;
            if reply.None? || reply.value.threadId == "" || !Latest(u, actions, ws)
               || (MayShow(w.store, ws, force) && reply.value.listing.Malformed?) then t == v.store
            else if MayShow(w.store, ws, force) && TurnFree(u, actions, ws) && v.store.requestWorkspace != Some(ws) then
              t == Shown(v.store, ws, reply.value)
            else t == v.store.(threadIds := v.store.threadIds[ws := reply.value.threadId])
  {
    hide Step, Inv, Latest, TurnFree, MayShow, IsNeeded, Shown, LoadAdded;
    var u, i := Step(w, DoLoad(ws, force)), w.nextOp;
    LoadStarts(w, ws, force);
    StepKeepsInv(w, DoLoad(ws, force));
    PlayKeepsLoad(u, actions, i, u.ops[i]);
    EpochTellsLatest(u, actions, ws);
    EpochTellsTurns(u, actions, ws);
    LoadEnds(Play(u, actions), i, u.ops[i], reply);
  }

  lemma KeepingLoadEnds(v: World, i: OpId, load: Op, reply: Option<ThreadBody>)
    requires i in v.ops && v.ops[i] == load && load.LoadOp? && !load.hydrate
    ensures var t := Step(v, LoadReplied(i, reply)).store;
            && t == v.store.(threadIds := t.threadIds)
            && (t.threadIds == v.store.threadIds
                || (reply.Some? && reply.value.threadId != "" && t.threadIds == v.store.threadIds[load.ws := reply.value.threadId]))
  {
  }

  /**
   An unforced load of a workspace that has something to show never changes a list, whatever runs in between, resets
   included, and whatever is answered: at most it records the thread.
   */
  lemma UnforcedLoadKeepsEveryList(w: World, ws: WorkspaceId, actions: seq<Action>, reply: Option<ThreadBody>)
    requires Inv(w) && IsNeeded(w.store, ws, false) && Activate(w.store, ws).messages != []
    requires w.nextOp in Play(Step(w, DoLoad(ws, false)), actions).ops
    ensures var v := Play(Step(w, DoLoad(ws, false)), actions);
            var t := Step(v, LoadReplied(w.nextOp, reply)).store;
            && t == v.store.(threadIds := t.threadIds)
            && (t.threadIds == v.store.threadIds
                || (reply.Some? && reply.value.threadId != "" && t.threadIds == v.store.threadIds[ws := reply.value.threadId]))
  {
    hide Step, Inv, Activate, IsNeeded;
    var u, i := Step(w, DoLoad(ws, false)), w.nextOp;
    LoadStarts(w, ws, false);
    StepKeepsInv(w, DoLoad(ws, false));
    PlayKeepsLoad(u, actions, i, u.ops[i]);
    KeepingLoadEnds(Play(u, actions), i, u.ops[i], reply);
  }
}
