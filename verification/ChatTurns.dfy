/**
 What the request ids, the epochs and the recovery lock achieve over whole runs: who may still
 write to the store, which history responses may still replace a list, and what a stream leaves.
 */
module ChatTurns {
  import opened Wrappers
  import opened ChatProtocol
  import opened ChatInvariants
  import opened ChatEffects
  import opened ChatChannels

  // ---------- Every reachable state ----------

  /** In every reachable state, whatever was interleaved and reset on the way. */
  lemma EveryReachableStateIsConsistent(actions: seq<Action>)
    ensures var s := Play(INITIAL_WORLD, actions).store;
            && s.messages == StoredMessages(s, Key(s.active))
            && (s.isSending <==> s.requestId.Some?)
            && (s.isSending <==> s.requestWorkspace.Some?)
            && (s.requestWorkspace.Some? ==> s.active == s.requestWorkspace)
            && (s.stream.Some? || s.abortController.Some? ==> s.isSending)
    ensures Inv(Play(INITIAL_WORLD, actions))
  {
    assert Inv(INITIAL_WORLD);
    PlayKeepsInv(INITIAL_WORLD, actions);
  }

  /** Once every send and recovery has ended, nothing is being sent. */
  lemma NothingIsSentWithoutATurn(actions: seq<Action>)
    requires forall i | i in Play(INITIAL_WORLD, actions).ops :: Play(INITIAL_WORLD, actions).ops[i].LoadOp?
    ensures !Play(INITIAL_WORLD, actions).store.isSending
  {
    EveryReachableStateIsConsistent(actions);
  }

  /** The three-way test of a running send agrees with the id-only test of its `finally` block. */
  lemma CurrentTestsAgree(actions: seq<Action>, i: OpId)
    requires i in Play(INITIAL_WORLD, actions).ops && Play(INITIAL_WORLD, actions).ops[i].SendOp?
    ensures var w := Play(INITIAL_WORLD, actions);
            IsCurrentSend(w.store, i, w.ops[i].ws) <==> w.store.requestId == Some(SendRequest(i))
  {
    EveryReachableStateIsConsistent(actions);
    var w := Play(INITIAL_WORLD, actions);
    assert OpOk(w, i);
  }

  /** While a send is current, its question and its started answer are in the list of its workspace. */
  lemma LiveTurnIsListed(actions: seq<Action>, i: OpId)
    requires i in Play(INITIAL_WORLD, actions).ops && Play(INITIAL_WORLD, actions).ops[i].SendOp?
    requires Play(INITIAL_WORLD, actions).store.requestId == Some(SendRequest(i))
    ensures var w := Play(INITIAL_WORLD, actions);
            var listed := StoredMessages(w.store, KeyOf(w.ops[i].ws));
            && HasMessage(listed, w.ops[i].userMessage, User)
            && (w.ops[i].phase.AwaitOutcome? ==> HasMessage(listed, w.ops[i].phase.assistant, Assistant))
  {
    EveryReachableStateIsConsistent(actions);
    var w := Play(INITIAL_WORLD, actions);
    assert OpOk(w, i);
  }

  /** While a recovery of a run is current, the answer that carries the run's id is in the list of its workspace. */
  lemma LiveRecoveryIsListed(actions: seq<Action>, run: RunId)
    requires Play(INITIAL_WORLD, actions).store.requestId == Some(RecoveryRequest(run))
    ensures var w := Play(INITIAL_WORLD, actions);
            && w.store.active == Some(run.owner)
            && HasMessage(StoredMessages(w.store, KeyOf(run.owner)), RecoveryMessageId(run), Assistant)
            && exists i | i in w.ops :: Follows(w.ops[i], run)
  {
    EveryReachableStateIsConsistent(actions);
  }

  /** A send that is still pending but lost the store never keeps a live transport. */
  lemma SupersededSendWasAborted(actions: seq<Action>, i: OpId)
    requires i in Play(INITIAL_WORLD, actions).ops && Play(INITIAL_WORLD, actions).ops[i].SendOp?
    requires Play(INITIAL_WORLD, actions).store.requestId != Some(SendRequest(i))
    ensures i in Play(INITIAL_WORLD, actions).aborted
  {
    EveryReachableStateIsConsistent(actions);
    assert OpOk(Play(INITIAL_WORLD, actions), i);
  }

  // ---------- A superseded send never comes back ----------

  /** Operation `i` has been started, and the store is not its own. */
  predicate Gone(w: World, i: OpId) {
    i < w.nextOp && w.store.requestId != Some(SendRequest(i))
  }

  lemma StepKeepsGone(w: World, a: Action, i: OpId)
    requires Inv(w) && Gone(w, i) && WasSend(w, i)
    ensures Gone(Step(w, a), i) && WasSend(Step(w, a), i)
  {
    if a == DoReset {
      assert Step(w, a) == Reset(w);
    } else {
      hide Step;
      StepMoves(w, a);
      StepOpens(w, a);
      OpeningKeepsSend(w, Step(w, a), i);
    }
  }

  lemma {:induction false} PlayKeepsGone(w: World, actions: seq<Action>, i: OpId)
    requires Inv(w) && Gone(w, i) && WasSend(w, i)
    ensures Gone(Play(w, actions), i) && WasSend(Play(w, actions), i)
    decreases |actions|
  {
    hide Inv, WasSend;
    if actions != [] {
      StepKeepsInv(w, actions[0]);
      StepKeepsGone(w, actions[0], i);
      PlayKeepsGone(Step(w, actions[0]), actions[1..], i);
    }
  }

  /** The segments and callbacks that belong to send `i`. */
  predicate ConcernsSend(a: Action, i: OpId) {
    match a
    case SendThreadReplied(op, _, _) => op == i
    case SendErrorRead(op, _, _) => op == i
    case SendBodyRead(op, _, _, _) => op == i
    case SendBodyRejected(op, _, _) => op == i
    case SendStreamEnded(op, _, _) => op == i
    case Callback(op, _) => op == i
    case _ => false
  }

  /** Without the store, a segment can only end its send as cancelled. */
  lemma GoneSegmentIsInert(v: World, i: OpId, a: Action)
    requires Gone(v, i) && ConcernsSend(a, i) && Enabled(v, a) && !a.Callback?
    ensures Step(v, a).store == v.store
    ensures Step(v, a) == FinishSend(v, i, Cancelled)
            || (i in Step(v, a).ops && Step(v, a).results == v.results)
  {
  }

  lemma ReachableChannelsFit(actions: seq<Action>)
    ensures Inv(Play(INITIAL_WORLD, actions)) && ChannelsFit(Play(INITIAL_WORLD, actions))
  {
    assert Inv(INITIAL_WORLD) && ChannelsFit(INITIAL_WORLD);
    PlayKeepsChannels(INITIAL_WORLD, actions);
  }

  lemma GoneActionIsInert(v: World, i: OpId, a: Action)
    requires Gone(v, i) && WasSend(v, i) && ConcernsSend(a, i)
    ensures Step(v, a).store == v.store
    ensures i in v.ops && i !in Step(v, a).ops ==> Step(v, a).results == v.results[i := Cancelled]
  {
    if Enabled(v, a) && !a.Callback? {
      GoneSegmentIsInert(v, i, a);
    }
  }

  /**
   Once a pending send has lost the store, every later segment or callback of it, after any further run with
   or without resets, leaves the state record unchanged; and if it returns, it returns "cancelled".
   */
  lemma SupersededSendIsInert(before: seq<Action>, actions: seq<Action>, i: OpId, a: Action)
    requires var w := Play(INITIAL_WORLD, before);
             i in w.ops && w.ops[i].SendOp? && w.store.requestId != Some(SendRequest(i))
    requires ConcernsSend(a, i)
    ensures var v := Play(Play(INITIAL_WORLD, before), actions);
            && Step(v, a).store == v.store
            && (i in v.ops && i !in Step(v, a).ops ==> Step(v, a).results == v.results[i := Cancelled])
  {
    var w := Play(INITIAL_WORLD, before);
    ReachableChannelsFit(before);
    assert WasSend(w, i) by { assert ChannelFits(w, i); }
    PlayKeepsGone(w, actions, i);
    GoneActionIsInert(Play(w, actions), i, a);
  }

  // ---------- The recovery lock ----------

  /** Every recovery in flight holds the lock of its workspace, so there is one per workspace. */
  predicate Locked(w: World) {
    && (forall i | i in w.ops && w.ops[i].RecoveryOp? :: w.ops[i].ws in w.recovering)
    && (forall i, j | i in w.ops && j in w.ops && w.ops[i].RecoveryOp? && w.ops[j].RecoveryOp? && w.ops[i].ws == w.ops[j].ws
          :: i == j)
  }

  lemma MovesKeepLock(w: World, v: World)
    requires Locked(w) && Bounded(w) && Moves(w, v)
    ensures Locked(v)
  {
  }

  lemma StepKeepsLock(w: World, a: Action)
    requires Inv(w) && Locked(w) && a != DoReset
    ensures Locked(Step(w, a))
  {
    StepMoves(w, a);
    MovesKeepLock(w, Step(w, a));
  }

  /** A reset hands out every lock again, so the lock means something afterwards only if nobody held one. */
  lemma ResetKeepsLockIffIdle(w: World)
    ensures Locked(Reset(w)) <==> forall i | i in w.ops :: !w.ops[i].RecoveryOp?
  {
  }

  // ---------- A superseded recovery stays superseded until a reset ----------

  /** Recovery `i` follows `run` without owning the store, or has stopped following it. */
  predicate Lost(w: World, i: OpId, run: RunId) {
    && i < w.nextOp
    && (i in w.ops ==>
          && w.ops[i].RecoveryOp? && w.ops[i].ws == run.owner
          && (w.ops[i].recovery.AwaitRefresh?
              || (w.ops[i].recovery == AwaitRun(run) && w.store.requestId != Some(RecoveryRequest(run)))))
  }

  lemma StepKeepsLost(w: World, a: Action, i: OpId, run: RunId)
    requires Inv(w) && Locked(w) && Lost(w, i, run) && a != DoReset
    ensures Lost(Step(w, a), i, run)
  {
    StepMoves(w, a);
  }

  lemma {:induction false} PlayKeepsLost(w: World, actions: seq<Action>, i: OpId, run: RunId)
    requires Inv(w) && Locked(w) && Lost(w, i, run) && DoReset !in actions
    ensures Lost(Play(w, actions), i, run) && Locked(Play(w, actions)) && Inv(Play(w, actions))
    decreases |actions|
  {
    if actions != [] {
      StepKeepsInv(w, actions[0]);
      StepKeepsLock(w, actions[0]);
      StepKeepsLost(w, actions[0], i, run);
      PlayKeepsLost(Step(w, actions[0]), actions[1..], i, run);
    }
  }

  /** The segments and callbacks that belong to recovery `i` once it follows a run. */
  predicate ConcernsRecovery(a: Action, i: OpId) {
    match a
    case Callback(op, _) => op == i
    case RecoveryStreamEnded(op, _) => op == i
    case RecoveryRefreshed(op) => op == i
    case _ => false
  }

  lemma InvBounds(w: World)
    requires Inv(w)
    ensures Bounded(w)
  {
  }

  lemma {:induction false} PlayKeepsCallback(w: World, actions: seq<Action>, i: OpId, run: RunId)
    requires Inv(w) && Locked(w) && Lost(w, i, run) && DoReset !in actions
    requires i in w.channels && w.channels[i] == RecoveryChannel(run.owner, run)
    ensures var v := Play(w, actions); i in v.channels && v.channels[i] == RecoveryChannel(run.owner, run)
    decreases |actions|
  {
    hide Step, Inv, Locked;
    if actions != [] {
      var next := Step(w, actions[0]);
      assert Bounded(w) by { InvBounds(w); }
      StepOpens(w, actions[0]);
      OpeningKeepsCallback(w, next, i, RecoveryChannel(run.owner, run));
      StepKeepsInv(w, actions[0]);
      StepKeepsLock(w, actions[0]);
      StepKeepsLost(w, actions[0], i, run);
      PlayKeepsCallback(next, actions[1..], i, run);
    }
  }

  /** A lost recovery still holds the lock, so no other recovery can have made its run current. */
  lemma LostRunIsNotCurrent(v: World, i: OpId, run: RunId)
    requires Inv(v) && Locked(v) && Lost(v, i, run) && i in v.ops
    ensures v.store.requestId != Some(RecoveryRequest(run))
  {
  }

  lemma LostEndIsInert(v: World, i: OpId, run: RunId, ended: Option<StreamOutcome>)
    requires InRecovery(v, i, AwaitRun(run)) && v.store.requestId != Some(RecoveryRequest(run))
    ensures RecoveryOutcome(v, i, ended).store == v.store
  {
  }

  lemma LostActionIsInert(v: World, i: OpId, run: RunId, a: Action)
    requires Inv(v) && Locked(v) && Lost(v, i, run) && i in v.ops && ConcernsRecovery(a, i)
    requires i in v.channels && v.channels[i] == RecoveryChannel(run.owner, run)
    ensures Step(v, a).store == v.store
  {
    LostRunIsNotCurrent(v, i, run);
    if a.RecoveryStreamEnded? && v.ops[i].recovery == AwaitRun(run) {
      LostEndIsInert(v, i, run, a.ended);
    }
  }

  /**
   Between resets, a recovery that lost the store can, as long as it is pending, write to it neither by a
   callback nor by ending nor by returning.
   */
  lemma SupersededRecoveryIsInert(before: seq<Action>, actions: seq<Action>, i: OpId, run: RunId, a: Action)
    requires var w := Play(INITIAL_WORLD, before);
             Locked(w) && InRecovery(w, i, AwaitRun(run)) && w.store.requestId != Some(RecoveryRequest(run))
    requires DoReset !in actions && i in Play(Play(INITIAL_WORLD, before), actions).ops && ConcernsRecovery(a, i)
    ensures var v := Play(Play(INITIAL_WORLD, before), actions);
            Step(v, a).store == v.store
  {
    var w := Play(INITIAL_WORLD, before);
    ReachableChannelsFit(before);
    assert OpOk(w, i) && ChannelFits(w, i);
    PlayKeepsLost(w, actions, i, run);
    PlayKeepsCallback(w, actions, i, run);
    LostActionIsInert(Play(w, actions), i, run, a);
  }

  // ---------- History responses ----------

  /** Load `i` of `ws` is in flight and was requested under the current epochs or earlier ones. */
  predicate Requested(w: World, i: OpId, ws: WorkspaceId) {
    && i in w.ops && w.ops[i].LoadOp? && w.ops[i].ws == ws
    && w.ops[i].activityEpoch <= Epoch(w.activityEpochs, ws)
    && w.ops[i].requestEpoch <= Epoch(w.historyEpochs, ws)
  }

  /** While it is pending, a turn has begun in its workspace since load `i` was requested. */
  predicate Overtaken(w: World, i: OpId, ws: WorkspaceId) {
    && i < w.nextOp
    && (i in w.ops ==> w.ops[i].LoadOp? && w.ops[i].ws == ws && w.ops[i].activityEpoch < Epoch(w.activityEpochs, ws))
  }

  /** While it is pending, another load of its workspace has been requested since load `i` was. */
  predicate Outdated(w: World, i: OpId, ws: WorkspaceId) {
    && i < w.nextOp
    && (i in w.ops ==> w.ops[i].LoadOp? && w.ops[i].ws == ws && w.ops[i].requestEpoch < Epoch(w.historyEpochs, ws))
  }

  lemma RequestedMoves(w: World, v: World, i: OpId, ws: WorkspaceId)
    requires Moves(w, v) && (i in w.ops ==> Requested(w, i, ws)) && i < w.nextOp
    ensures (i in v.ops ==> Requested(v, i, ws)) && i < v.nextOp
  {
  }

  lemma {:induction false} PlayKeepsRequested(w: World, actions: seq<Action>, i: OpId, ws: WorkspaceId)
    requires Inv(w) && DoReset !in actions && (i in w.ops ==> Requested(w, i, ws)) && i < w.nextOp
    ensures Inv(Play(w, actions)) && (i in Play(w, actions).ops ==> Requested(Play(w, actions), i, ws))
    ensures i < Play(w, actions).nextOp
    decreases |actions|
  {
    if actions != [] {
      StepMoves(w, actions[0]);
      StepKeepsInv(w, actions[0]);
      RequestedMoves(w, Step(w, actions[0]), i, ws);
      PlayKeepsRequested(Step(w, actions[0]), actions[1..], i, ws);
    }
  }

  lemma OvertakenMoves(w: World, v: World, i: OpId, ws: WorkspaceId)
    requires Moves(w, v)
    ensures Overtaken(w, i, ws) ==> Overtaken(v, i, ws)
    ensures Outdated(w, i, ws) ==> Outdated(v, i, ws)
  {
  }

  lemma {:induction false} PlayKeepsOvertaken(w: World, actions: seq<Action>, i: OpId, ws: WorkspaceId)
    requires Inv(w) && DoReset !in actions
    ensures Overtaken(w, i, ws) ==> Overtaken(Play(w, actions), i, ws)
    ensures Outdated(w, i, ws) ==> Outdated(Play(w, actions), i, ws)
    decreases |actions|
  {
    if actions != [] {
      StepMoves(w, actions[0]);
      StepKeepsInv(w, actions[0]);
      OvertakenMoves(w, Step(w, actions[0]), i, ws);
      PlayKeepsOvertaken(Step(w, actions[0]), actions[1..], i, ws);
    }
  }

  /** The segment begins a turn in `ws`: an accepted send, or a recovery that has found an active run. */
  predicate BeginsTurn(w: World, a: Action, ws: WorkspaceId) {
    match a
    case DoSend(target, content, has, _) => target == ws && AcceptsSend(w, content, has)
    case RecoveryRunsRead(op, runs, _) =>
      Enabled(w, a) && w.ops[op].ws == ws && MayRecover(w, ws) && LatestActive(runs).Some?
    case _ => false
  }

  lemma RunListBumps(w: World, op: OpId, runs: seq<Run>, joins: bool)
    requires InRecovery(w, op, AwaitRunList) && LatestActive(runs).Some? && MayRecover(w, w.ops[op].ws)
    ensures RecoveryRunList(w, op, runs, joins).activityEpochs == Bump(w.activityEpochs, w.ops[op].ws)
  {
  }

  lemma TurnBumps(w: World, a: Action, ws: WorkspaceId)
    requires BeginsTurn(w, a, ws)
    ensures Epoch(Step(w, a).activityEpochs, ws) == Epoch(w.activityEpochs, ws) + 1
  {
    if a.DoSend? {
      assert Step(w, a).activityEpochs == Bump(w.activityEpochs, ws);
    } else {
      RunListBumps(w, a.op, a.runs, a.joins);
    }
  }

  lemma TurnOvertakes(w: World, a: Action, i: OpId, ws: WorkspaceId)
    requires Inv(w) && BeginsTurn(w, a, ws) && (i in w.ops ==> Requested(w, i, ws)) && i < w.nextOp
    ensures Overtaken(Step(w, a), i, ws)
  {
    StepMoves(w, a);
    TurnBumps(w, a, ws);
  }

  lemma OvertakenLoadKeepsLists(w: World, i: OpId, ws: WorkspaceId, thread: Option<ThreadBody>)
    requires Overtaken(w, i, ws) && i in w.ops
    ensures var t := Step(w, LoadReplied(i, thread)).store;
            t == w.store.(threadIds := t.threadIds)
  {
  }

  /**
   Between resets, a history response never replaces a list in which a turn has begun since the history
   was requested, even when it arrives after that turn has ended: it can only record the thread id.
   */
  lemma HistoryNeverOverwritesALaterTurn(w: World, i: OpId, ws: WorkspaceId, before: seq<Action>, turn: Action,
                                         after: seq<Action>, thread: Option<ThreadBody>)
    requires Inv(w) && Requested(w, i, ws) && DoReset !in before && DoReset !in after
    requires BeginsTurn(Play(w, before), turn, ws)
    requires i in Play(Step(Play(w, before), turn), after).ops
    ensures var v := Play(Step(Play(w, before), turn), after);
            var t := Step(v, LoadReplied(i, thread)).store;
            t == v.store.(threadIds := t.threadIds)
  {
    PlayKeepsRequested(w, before, i, ws);
    var u := Play(w, before);
    TurnOvertakes(u, turn, i, ws);
    StepKeepsInv(u, turn);
    PlayKeepsOvertaken(Step(u, turn), after, i, ws);
    OvertakenLoadKeepsLists(Play(Step(u, turn), after), i, ws, thread);
  }

  /** Between `w` and `v` another load of `ws` was requested, directly or as part of a refresh. */
  predicate LoadAdded(w: World, v: World, ws: WorkspaceId) {
    exists j | j in v.ops :: j !in w.ops && v.ops[j].LoadOp? && v.ops[j].ws == ws
  }

  lemma NewLoadOutdates(w: World, v: World, i: OpId, ws: WorkspaceId)
    requires Moves(w, v) && (i in w.ops ==> Requested(w, i, ws)) && i < w.nextOp
    requires LoadAdded(w, v, ws)
    ensures Outdated(v, i, ws)
  {
  }

  lemma OutdatedLoadIsInert(w: World, i: OpId, ws: WorkspaceId, thread: Option<ThreadBody>)
    requires Outdated(w, i, ws) && i in w.ops
    ensures Step(w, LoadReplied(i, thread)).store == w.store
  {
  }

  lemma RequestOutdates(w: World, a: Action, i: OpId, ws: WorkspaceId)
    requires Inv(w) && a != DoReset && (i in w.ops ==> Requested(w, i, ws)) && i < w.nextOp
    requires LoadAdded(w, Step(w, a), ws)
    ensures Outdated(Step(w, a), i, ws) && Inv(Step(w, a))
  {
    StepMoves(w, a);
    StepKeepsInv(w, a);
    NewLoadOutdates(w, Step(w, a), i, ws);
  }

  /** Between resets, of several loads of one workspace only the one requested last can change the store. */
  lemma OnlyTheLatestLoadHydrates(w: World, i: OpId, ws: WorkspaceId, before: seq<Action>, request: Action,
                                  after: seq<Action>, thread: Option<ThreadBody>)
    requires Inv(w) && Requested(w, i, ws) && DoReset !in before && DoReset !in after && request != DoReset
    requires LoadAdded(Play(w, before), Step(Play(w, before), request), ws)
    requires i in Play(Step(Play(w, before), request), after).ops
    ensures var v := Play(Step(Play(w, before), request), after);
            Step(v, LoadReplied(i, thread)).store == v.store
  {
    PlayKeepsRequested(w, before, i, ws);
    var u := Play(w, before);
    RequestOutdates(u, request, i, ws);
    PlayKeepsOvertaken(Step(u, request), after, i, ws);
    OutdatedLoadIsInert(Play(Step(u, request), after), i, ws, thread);
  }

  /** The shortest such run: a history requested before a send and answered after it leaves the question alone. */
  lemma LateHistoryKeepsTheQuestion(ws: WorkspaceId, content: string, user: MessageId, thread: ThreadBody)
    requires thread.threadId != ""
    ensures var asked := Play(INITIAL_WORLD, [DoLoad(ws, false), DoSend(ws, content, true, user)]);
            var late := Step(asked, LoadReplied(0, Some(thread)));
            && 0 in asked.ops && late.store.messages == [Message(user, User, [TextBlock(content)])]
            && late.store.threadIds == if thread.listing.Malformed? then map[] else map[ws := thread.threadId]
  {
    hide Trim;
    var load, send := DoLoad(ws, false), DoSend(ws, content, true, user);
    assert [load, send][1..] == [send] && [send][1..] == [];
    var w := Step(INITIAL_WORLD, load);
    assert Play(INITIAL_WORLD, [load, send]) == Play(w, [send]) == Play(Step(w, send), []) == Step(w, send);
    assert Step(w, send).store.messages == [] + [Message(user, User, [TextBlock(content)])];
  }

  /** Of two loads the first answer changes nothing and the second one is shown. */
  lemma SecondLoadIsShown(ws: WorkspaceId, first: ThreadBody, second: ThreadBody)
    requires second.threadId != ""
    ensures var asked := Play(INITIAL_WORLD, [DoLoad(ws, false), DoLoad(ws, true)]);
            && Step(asked, LoadReplied(0, Some(first))).store == EMPTY_STORE
            && Step(asked, LoadReplied(1, Some(second))).store.messages == Loaded(second)
  {
    var one, two := DoLoad(ws, false), DoLoad(ws, true);
    assert [one, two][1..] == [two] && [two][1..] == [];
    var w := Step(INITIAL_WORLD, one);
    assert Play(INITIAL_WORLD, [one, two]) == Play(w, [two]) == Play(Step(w, two), []) == Step(w, two);
  }

  lemma {:induction false} PlayKeepsLock(w: World, actions: seq<Action>)
    requires Inv(w) && Locked(w) && DoReset !in actions
    ensures Locked(Play(w, actions))
    decreases |actions|
  {
    if actions != [] {
      StepKeepsInv(w, actions[0]);
      StepKeepsLock(w, actions[0]);
      PlayKeepsLock(Step(w, actions[0]), actions[1..]);
    }
  }

  predicate IsRecoveryIn(w: World, i: OpId) {
    i in w.ops && w.ops[i].RecoveryOp?
  }

  /** Without resets, no two recoveries of one workspace are ever in flight together. */
  lemma OneRecoveryPerWorkspace(actions: seq<Action>, i: OpId, j: OpId)
    requires DoReset !in actions
    requires IsRecoveryIn(Play(INITIAL_WORLD, actions), i) && IsRecoveryIn(Play(INITIAL_WORLD, actions), j)
    requires Play(INITIAL_WORLD, actions).ops[i].ws == Play(INITIAL_WORLD, actions).ops[j].ws
    ensures i == j
  {
    assert Inv(INITIAL_WORLD) && Locked(INITIAL_WORLD);
    PlayKeepsLock(INITIAL_WORLD, actions);
  }
}
