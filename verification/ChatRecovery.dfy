/**
 * A whole recovery, over every interleaving: which run it joins, what it shows when it does, what it returns, and that it
 * waits for a refresh of the history before it does.
 */
module ChatRecovery {
  import opened Wrappers
  import opened ChatProtocol
  import opened ChatInvariants
  import opened ChatEffects
  import opened ChatChannels
  import opened ChatTurns
  import opened ChatAnswers
  import opened ChatFrames
  import opened ChatConversation
  import ChatEndings

  // ---------- Starting ----------

  /** The thread to ask for runs: the one that was given, even if it is blank, else the one that is known. */
  function ThreadFor(s: Store, ws: WorkspaceId, provided: Option<string>): string {
    match provided
    case Some(thread) => Trim(thread)
    case None => if ws in s.threadIds then Trim(s.threadIds[ws]) else Trim("")
  }

  /** A recovery goes on only for the shown workspace, while nothing is sent, with a thread, and if no other one is under way. */
  lemma RecoveryStartsIffItCan(w: World, ws: WorkspaceId, provided: Option<string>)
    ensures var v := Step(w, DoRecover(ws, provided));
            if ws !in w.recovering && w.store.active == Some(ws) && !w.store.isSending && ThreadFor(w.store, ws, provided) != "" then
              v == w.(recovering := w.recovering + {ws}, nextOp := w.nextOp + 1,
                      ops := w.ops[w.nextOp := RecoveryOp(ws, ThreadFor(w.store, ws, provided), AwaitRuns, None)])
            else v == w
  {
    hide Trim;
  }

  /** Recovery `i` waits for the pending refresh of its workspace, or for a forced load that was started for it, and then returns `result`. */
  predicate Refreshes(w: World, v: World, i: OpId, ws: WorkspaceId, result: TurnResult) {
    var load := if ws in w.refreshing then w.refreshing[ws] else w.nextOp;
    && i in v.ops && v.ops[i].RecoveryOp? && v.ops[i].ws == ws && v.ops[i].recovery == AwaitRefresh(load, result)
    && v.refreshing == w.refreshing[ws := load] && v.nextOp == w.nextOp + (if ws in w.refreshing then 0 else 1)
    && (ws !in w.refreshing ==>
          load in v.ops && v.ops[load] == LoadOp(ws, true, Epoch(w.activityEpochs, ws), Epoch(w.historyEpochs, ws) + 1)
          && v.historyEpochs == w.historyEpochs[ws := Epoch(w.historyEpochs, ws) + 1])
  }

  lemma AwaitingRefreshes(w: World, i: OpId, o: Op, result: TurnResult)
    requires o.RecoveryOp? && i < w.nextOp
    ensures Refreshes(w, AwaitHistory(w, i, o, result), i, o.ws, result)
  {
    hide ReadMessages;
    assert o.ws in w.refreshing ==> w.refreshing[o.ws := w.refreshing[o.ws]] == w.refreshing;
  }

  lemma RejectedQuery(w: World, i: OpId, reply: Reply)
    requires Enabled(w, RecoveryRunsReplied(i, reply)) && reply.Rejected?
    ensures Step(w, RecoveryRunsReplied(i, reply)) == AwaitHistory(w, i, w.ops[i], Nothing)
  {
    hide AwaitHistory;
    assert w.(store := w.store) == w;
  }

  /** A refused query ends the recovery; one that fails is followed by a refresh; both return nothing and change no record. */
  lemma QueryDecides(w: World, i: OpId, reply: Reply)
    requires Bounded(w) && Enabled(w, RecoveryRunsReplied(i, reply))
    ensures var v := Step(w, RecoveryRunsReplied(i, reply));
            && v.store == w.store
            && match reply
               case Ok => v == w.(ops := w.ops[i := w.ops[i].(recovery := AwaitRunList)])
               case NotOk => v == w.(recovering := w.recovering - {w.ops[i].ws}, ops := w.ops - {i}, results := w.results[i := Nothing])
               case Rejected(_) => Refreshes(w, v, i, w.ops[i].ws, Nothing)
  {
    hide Refresh;
    ChatEndings.RefreshKeepsStore(w, w.ops[i].ws);
    if reply.Rejected? {
      hide Step;
      assert Step(w, RecoveryRunsReplied(i, reply)) == AwaitHistory(w, i, w.ops[i], Nothing) by { RejectedQuery(w, i, reply); }
      AwaitingRefreshes(w, i, w.ops[i], Nothing);
    }
  }

  // ---------- Joining ----------

  /** The active run that changed last, and the first of those if there are several. */
  predicate IsLatest(runs: seq<Run>, k: nat) {
    && k < |runs| && runs[k].isActive
    && (forall j | 0 <= j < |runs| && runs[j].isActive :: runs[j].stamp <= runs[k].stamp)
    && (forall j | 0 <= j < k && runs[j].isActive :: runs[j].stamp < runs[k].stamp)
  }

  lemma {:induction false} LatestActiveIsLatest(runs: seq<Run>) returns (k: nat)
    requires LatestActive(runs).Some?
    ensures IsLatest(runs, k) && LatestActive(runs) == Some(runs[k])
  {
    var rest := LatestActive(runs[1..]);
    if runs[0].isActive && (rest.None? || runs[0].stamp >= rest.value.stamp) {
      k := 0;
      forall j | 0 <= j < |runs| && runs[j].isActive
        ensures runs[j].stamp <= runs[0].stamp
      {
        assert j > 0 ==> runs[j] == runs[1..][j - 1];
      }
    } else {
      var later := LatestActiveIsLatest(runs[1..]);
      k := later + 1;
      assert runs[k] == runs[1..][later];
      forall j | 0 <= j < |runs| && runs[j].isActive
        ensures runs[j].stamp <= runs[k].stamp && (j < k ==> runs[j].stamp < runs[k].stamp)
      {
        assert j > 0 ==> runs[j] == runs[1..][j - 1];
      }
    }
  }

  lemma NoneIsActive(runs: seq<Run>)
    requires LatestActive(runs).None?
    ensures forall r | r in runs :: !r.isActive
  {
  }

  /** Recovery `i` follows `run` and owns the store. */
  predicate Recovers(w: World, i: OpId, run: RunId) {
    && InRecovery(w, i, AwaitRun(run)) && w.ops[i].ws == run.owner
    && w.store.requestId == Some(RecoveryRequest(run))
    && i in w.channels && w.channels[i] == RecoveryChannel(run.owner, run)
  }

  function AnswerOf(run: RunId): MessageId {
    MessageId("recovery:" + run.name + ":assistant")
  }

  lemma JoiningAddsAnAnswer(s: Store, ws: WorkspaceId, run: RunId)
    ensures var t := BeginRecoveryTurn(s, ws, run);
            && t.messages == s.messages + [Message(AnswerOf(run), Assistant, [])] && t.currentAssistant == Some(AnswerOf(run))
            && t.isSending && t.requestId == Some(RecoveryRequest(run)) && t.requestWorkspace == Some(ws)
            && t.finalized == s.finalized && t.threadIds == s.threadIds && t.active == s.active
  {
  }

  /** Recovery `i` has joined `run`, with an empty answer at the end of the list, and nothing else has changed there. */
  predicate Joins(u: World, w: World, i: OpId, run: RunId) {
    && i in u.ops && u.ops[i].RecoveryOp? && Recovers(w, i, run)
    && w.ops == u.ops[i := u.ops[i].(recovery := AwaitRun(run))]
    && w.store.messages == u.store.messages + [Message(AnswerOf(run), Assistant, [])]
    && w.store.currentAssistant == Some(AnswerOf(run))
    && w.store.finalized == u.store.finalized && w.store.threadIds == u.store.threadIds
    && w.store.isSending && w.store.requestWorkspace == Some(run.owner) && w.store.stream == Some(i)
    && Epoch(w.activityEpochs, run.owner) == Epoch(u.activityEpochs, run.owner) + 1
  }

  lemma LatestIsJoined(u: World, i: OpId, runs: seq<Run>, run: RunId)
    requires InRecovery(u, i, AwaitRunList) && LatestActive(runs).Some? && LatestActive(runs).value.id == run
    requires MayRecover(u, u.ops[i].ws) && u.ops[i].ws == run.owner
    ensures Joins(u, RecoveryRunList(u, i, runs, true), i, run)
  {
    JoiningAddsAnAnswer(u.store, run.owner, run);
    hide LatestActive, BeginRecoveryTurn, AnswerOf;
  }

  lemma NothingIsJoined(u: World, i: OpId, runs: seq<Run>)
    requires InRecovery(u, i, AwaitRunList) && (LatestActive(runs).None? || !MayRecover(u, u.ops[i].ws))
    ensures RecoveryRunList(u, i, runs, true)
         == u.(recovering := u.recovering - {u.ops[i].ws}, ops := u.ops - {i}, results := u.results[i := Nothing])
  {
    hide LatestActive;
  }

  lemma ActiveRunIsFound(runs: seq<Run>) returns (k: nat)
    ensures LatestActive(runs).Some? <==> exists r | r in runs :: r.isActive
    ensures LatestActive(runs).Some? ==> IsLatest(runs, k) && LatestActive(runs) == Some(runs[k]) && runs[k] in runs
  {
    k := 0;
    if LatestActive(runs).Some? {
      k := LatestActiveIsLatest(runs);
    } else {
      NoneIsActive(runs);
    }
  }

  lemma ReadingTheList(u: World, i: OpId, runs: seq<Run>)
    requires Enabled(u, RecoveryRunsRead(i, runs, true))
    ensures InRecovery(u, i, AwaitRunList) && forall r | r in runs :: r.id.owner == u.ops[i].ws
    ensures Step(u, RecoveryRunsRead(i, runs, true)) == RecoveryRunList(u, i, runs, true)
  {
    hide RecoveryRunList;
  }

  /**
   When the runs are listed and the workspace is still shown and idle, the recovery joins the active run that changed last:
   it takes the store under the run's name and puts an empty answer with an id made of it at the end of the list. Without an
   active run, or if something else has begun, it returns nothing and changes no record.
   */
  lemma RecoveryJoinsTheLatestRun(u: World, i: OpId, runs: seq<Run>) returns (k: nat)
    requires Enabled(u, RecoveryRunsRead(i, runs, true))
    ensures i in u.ops && u.ops[i].RecoveryOp?
    ensures var w, ws := Step(u, RecoveryRunsRead(i, runs, true)), u.ops[i].ws;
            if u.store.active == Some(ws) && !u.store.isSending && exists r | r in runs :: r.isActive then
              IsLatest(runs, k) && runs[k].id.owner == ws && Joins(u, w, i, runs[k].id)
            else
              w == u.(recovering := u.recovering - {ws}, ops := u.ops - {i}, results := u.results[i := Nothing])
  {
    hide Step, Enabled, LatestActive, IsLatest, Joins, RecoveryRunList;
    ReadingTheList(u, i, runs);
    k := ActiveRunIsFound(runs);
    if LatestActive(runs).Some? && MayRecover(u, u.ops[i].ws) {
      LatestIsJoined(u, i, runs, runs[k].id);
    } else {
      NothingIsJoined(u, i, runs);
    }
  }

  lemma JoiningKeepsLaunched(u: World, i: OpId, runs: seq<Run>, run: RunId)
    requires Enabled(u, RecoveryRunsRead(i, runs, true)) && Recovers(Step(u, RecoveryRunsRead(i, runs, true)), i, run)
    ensures Step(u, RecoveryRunsRead(i, runs, true)).ops[i].launched == u.ops[i].launched
  {
    hide LatestActive, BeginRecoveryTurn;
  }

  // ---------- Following the run ----------

  lemma FollowerCallbackLaunches(w: World, item: StreamItem, i: OpId, run: RunId)
    requires Inv(w) && Recovers(w, i, run)
    ensures var v := Step(w, Callback(i, item)); i in v.ops && v.ops[i] == NoteLaunch(w.ops[i], item)
  {
    hide Reduce, NoteLaunch;
  }

  lemma FollowerSegments(w: World, a: Action, i: OpId, run: RunId)
    requires Recovers(w, i, run) && Concerns(a, i) && Enabled(w, a) && !a.Callback?
    ensures !Recovers(Step(w, a), i, run)
  {
    hide Refresh, Without;
  }

  lemma RecoversFacts(w: World, i: OpId, run: RunId)
    requires Recovers(w, i, run)
    ensures i in w.ops && w.ops[i].RecoveryOp? && w.ops[i].ws == run.owner && w.ops[i].recovery == AwaitRun(run)
  {
  }

  lemma StepFollows(w: World, a: Action, i: OpId, run: RunId)
    requires Inv(w) && Recovers(w, i, run) && Recovers(Step(w, a), i, run)
    ensures i in w.ops && w.ops[i].RecoveryOp? && i in Step(w, a).ops && Step(w, a).ops[i].RecoveryOp?
    ensures Step(w, a).ops[i] == w.ops[i].(launched := Later(w.ops[i].launched, LastMission(Delivered([a], i))))
  {
    hide Step, Inv, Recovers, Enabled, MissionOf, LastMission, NoteLaunch;
    assert Bounded(w) by { InvBounds(w); }
    RecoversFacts(w, i, run);
    RecoversFacts(Step(w, a), i, run);
    if a.Callback? && a.op == i {
      FollowerCallbackLaunches(w, a.item, i, run);
      ItemLaunches(w.ops[i], a.item);
      assert Delivered([a], i) == [a.item];
      OneMission(a.item);
    } else {
      assert Delivered([a], i) == [];
      NoMission();
      if !Enabled(w, a) {
        NothingHappens(w, a);
      } else if Concerns(a, i) {
        FollowerSegments(w, a, i, run);
      } else {
        OthersLeaveItAlone(w, a, i);
      }
    }
  }

  lemma FollowingOrLost(w: World, a: Action, i: OpId, run: RunId)
    requires Inv(w) && Recovers(w, i, run) && a != DoReset
    ensures Recovers(Step(w, a), i, run) || Lost(Step(w, a), i, run)
  {
    hide Step;
    assert Bounded(w);
    StepMoves(w, a);
    StepOpens(w, a);
    OpeningKeepsCallback(w, Step(w, a), i, RecoveryChannel(run.owner, run));
  }

  lemma LostIsNotFollowing(v: World, i: OpId, run: RunId)
    requires Lost(v, i, run)
    ensures !Recovers(v, i, run)
  {
  }

  lemma {:induction false} PlayFollows(w: World, actions: seq<Action>, i: OpId, run: RunId)
    requires Inv(w) && Locked(w) && Recovers(w, i, run) && DoReset !in actions && Recovers(Play(w, actions), i, run)
    ensures i in w.ops && w.ops[i].RecoveryOp?
    ensures var v := Play(w, actions);
            && Inv(v) && i in v.ops
            && v.ops[i] == w.ops[i].(launched := Later(w.ops[i].launched, LastMission(Delivered(actions, i))))
    decreases |actions|
  {
    hide Step, Inv, Locked, Recovers, Delivered, LastMission, Lost;
    RecoversFacts(w, i, run);
    if actions == [] {
      NothingDelivered(i);
      NoMission();
    } else {
      var a, rest := actions[0], actions[1..];
      var next := Step(w, a);
      StepKeepsInv(w, a);
      StepKeepsLock(w, a);
      FollowingOrLost(w, a, i, run);
      if Lost(next, i, run) {
        PlayKeepsLost(next, rest, i, run);
        LostIsNotFollowing(Play(next, rest), i, run);
      }
      StepFollows(w, a, i, run);
      PlayFollows(next, rest, i, run);
      DeliveredFirst(actions, i);
      LastMissionConcat(Delivered([a], i), Delivered(rest, i));
    }
  }

  // ---------- Ending ----------

  lemma RefreshesAsBefore(w: World, u: World, v: World, i: OpId, ws: WorkspaceId, result: TurnResult)
    requires u == w.(store := u.store) && Refreshes(u, v, i, ws, result)
    ensures Refreshes(w, v, i, ws, result)
  {
  }

  lemma AwaitingKeepsStore(w: World, i: OpId, o: Op, result: TurnResult)
    requires o.RecoveryOp?
    ensures AwaitHistory(w, i, o, result).store == w.store
  {
    ChatEndings.RefreshKeepsStore(w, o.ws);
    hide Refresh;
  }

  function Ended(v: World, i: OpId, outcome: StreamOutcome): TurnResult
    requires i in v.ops && v.ops[i].RecoveryOp?
  {
    match outcome
    case StreamCompleted => if v.ops[i].launched.Some? then Launched(v.ops[i].launched.value) else Completed
    case StreamFailed(error) => Failed(error)
    case StreamCancelled => Cancelled
  }

  lemma EndedStreamAwaits(v: World, i: OpId, run: RunId, outcome: StreamOutcome)
    requires Recovers(v, i, run) && v.store.active == Some(run.owner)
    ensures Step(v, RecoveryStreamEnded(i, Some(outcome)))
         == AwaitHistory(v.(store := EndRecoveryTurn(v.store)), i, v.ops[i], Ended(v, i, outcome))
  {
    hide AwaitHistory;
  }

  lemma FollowerHoldsTheStore(v: World, i: OpId, run: RunId)
    requires Inv(v) && Recovers(v, i, run)
    ensures v.store.abortController.None? && v.store.active == Some(run.owner) && i < v.nextOp && Bounded(v)
  {
  }

  /** The end of the stream gives the store back, leaves every list as it is, and waits for the history. */
  lemma EndedStreamRefreshes(v: World, i: OpId, run: RunId, outcome: StreamOutcome)
    requires Inv(v) && Recovers(v, i, run)
    ensures i in v.ops && v.ops[i].RecoveryOp?
    ensures var x := Step(v, RecoveryStreamEnded(i, Some(outcome)));
            && x.store == v.store.(currentAssistant := None, isSending := false, requestId := None, requestWorkspace := None, stream := None)
            && ChatEndings.Freed(x.store)
            && Refreshes(v, x, i, run.owner, Ended(v, i, outcome))
  {
    hide Refreshes, Step, Inv, AwaitHistory;
    FollowerHoldsTheStore(v, i, run);
    EndedStreamAwaits(v, i, run, outcome);
    var ended, result := v.(store := EndRecoveryTurn(v.store)), Ended(v, i, outcome);
    AwaitingRefreshes(ended, i, v.ops[i], result);
    RefreshesAsBefore(v, ended, AwaitHistory(ended, i, v.ops[i], result), i, run.owner, result);
    AwaitingKeepsStore(ended, i, v.ops[i], result);
  }

  lemma RejectedStreamAwaits(v: World, i: OpId, run: RunId)
    requires Recovers(v, i, run)
    ensures var s := v.store;
            var caught := EndRecoveryTurn(SyncActive(s, Without(s.messages, RecoveryMessageId(run))));
            Step(v, RecoveryStreamEnded(i, None)) == AwaitHistory(v.(store := caught), i, v.ops[i], Nothing)
  {
    hide AwaitHistory, Without, SyncActive, EndRecoveryTurn;
  }

  /** A stream whose completion is rejected takes every answer of its run out of the list, and then waits for the history. */
  lemma RejectedStreamDropsTheRun(v: World, i: OpId, run: RunId)
    requires Inv(v) && Recovers(v, i, run)
    ensures var x := Step(v, RecoveryStreamEnded(i, None));
            && (forall m :: m in x.store.messages <==> m in v.store.messages && m.id != AnswerOf(run))
            && x.store.currentAssistant.None? && ChatEndings.Freed(x.store) && Refreshes(v, x, i, run.owner, Nothing)
  {
    hide Refreshes, Without, Step, Inv, AwaitHistory, HasId;
    FollowerHoldsTheStore(v, i, run);
    RejectedStreamAwaits(v, i, run);
    var s := v.store;
    var caught := v.(store := EndRecoveryTurn(SyncActive(s, Without(s.messages, RecoveryMessageId(run)))));
    ChatEndings.WithoutIsTheRest(s.messages, RecoveryMessageId(run));
    AwaitingRefreshes(caught, i, v.ops[i], Nothing);
    RefreshesAsBefore(v, caught, AwaitHistory(caught, i, v.ops[i], Nothing), i, run.owner, Nothing);
    AwaitingKeepsStore(caught, i, v.ops[i], Nothing);
  }

  // ---------- Returning ----------

  /** Operation `i` waits for a load and has a result to return, or has returned. */
  predicate Returns(w: World, i: OpId, ws: WorkspaceId, load: OpId, result: TurnResult) {
    && i < w.nextOp
    && (i in w.ops ==> w.ops[i].RecoveryOp? && w.ops[i].ws == ws && w.ops[i].recovery == AwaitRefresh(load, result))
  }

  lemma StepReturns(w: World, a: Action, i: OpId, ws: WorkspaceId, load: OpId, result: TurnResult)
    requires Inv(w) && Returns(w, i, ws, load, result)
    ensures Returns(Step(w, a), i, ws, load, result)
  {
    if a != DoReset {
      hide Step;
      StepMoves(w, a);
    }
  }

  lemma {:induction false} PlayReturns(w: World, actions: seq<Action>, i: OpId, ws: WorkspaceId, load: OpId, result: TurnResult)
    requires Inv(w) && Returns(w, i, ws, load, result)
    ensures Inv(Play(w, actions)) && Returns(Play(w, actions), i, ws, load, result)
    decreases |actions|
  {
    hide Step, Inv, Returns;
    if actions != [] {
      StepKeepsInv(w, actions[0]);
      StepReturns(w, actions[0], i, ws, load, result);
      PlayReturns(Step(w, actions[0]), actions[1..], i, ws, load, result);
    }
  }

  /** Once its load is answered, a recovery that waits for it returns its result and the lock, and changes no record. */
  lemma ReturnIsTheResult(y: World, i: OpId, ws: WorkspaceId, load: OpId, result: TurnResult)
    requires Returns(y, i, ws, load, result) && i in y.ops
    ensures var z := Step(y, RecoveryRefreshed(i));
            if load in y.ops then z == y
            else z == y.(recovering := y.recovering - {ws}, ops := y.ops - {i}, results := y.results[i := result])
  {
  }

  lemma RefreshingReturns(w: World, v: World, i: OpId, ws: WorkspaceId, result: TurnResult)
    requires Refreshes(w, v, i, ws, result) && Inv(v)
    ensures Returns(v, i, ws, if ws in w.refreshing then w.refreshing[ws] else w.nextOp, result)
  {
    assert Bounded(v);
  }

  // ---------- The whole recovery ----------

  /** Recovery `i` has not joined a run yet. */
  predicate Asks(w: World, i: OpId) {
    && i in w.ops && w.ops[i].RecoveryOp? && (w.ops[i].recovery.AwaitRuns? || w.ops[i].recovery.AwaitRunList?)
    && w.ops[i].launched.None? && i !in w.channels
  }

  /** Recovery `i` has joined a run, or will not. */
  predicate AskedBefore(w: World, i: OpId) {
    && i < w.nextOp
    && (i in w.ops ==> w.ops[i].RecoveryOp? && (w.ops[i].recovery.AwaitRun? || w.ops[i].recovery.AwaitRefresh?))
  }

  lemma AwaitingAsksNoMore(w: World, i: OpId, o: Op, result: TurnResult)
    requires o.RecoveryOp? && i < w.nextOp
    ensures AskedBefore(AwaitHistory(w, i, o, result), i)
  {
    hide ReadMessages, IsCached;
  }

  lemma CatchingAsksNoMore(w: World, i: OpId, o: Op, run: Option<RunId>)
    requires o.RecoveryOp? && i < w.nextOp
    ensures AskedBefore(CatchRecovery(w, i, o, run), i)
  {
    hide AwaitHistory, Without;
    var s := w.store;
    var caught := if run.Some? && s.requestId == Some(RecoveryRequest(run.value))
                  then EndRecoveryTurn(SyncActive(s, Without(s.messages, RecoveryMessageId(run.value)))) else s;
    AwaitingAsksNoMore(w.(store := caught), i, o, Nothing);
  }

  lemma ReadingAsksNoMore(w: World, i: OpId, runs: seq<Run>, joins: bool)
    requires InRecovery(w, i, AwaitRunList) && i < w.nextOp
    ensures AskedBefore(RecoveryRunList(w, i, runs, joins), i)
  {
    hide LatestActive, BeginRecoveryTurn, CatchRecovery;
    var latest := LatestActive(runs);
    if latest.Some? && MayRecover(w, w.ops[i].ws) && !joins {
      var o, run := w.ops[i], latest.value.id;
      var begun := w.(store := BeginRecoveryTurn(w.store, o.ws, run), activityEpochs := Bump(w.activityEpochs, o.ws));
      CatchingAsksNoMore(begun, i, o, Some(run));
    }
  }

  lemma ReplyAsks(w: World, i: OpId, reply: Reply)
    requires Bounded(w) && Enabled(w, RecoveryRunsReplied(i, reply)) && Asks(w, i)
    ensures var v := Step(w, RecoveryRunsReplied(i, reply)); Asks(v, i) || AskedBefore(v, i)
  {
    var v := Step(w, RecoveryRunsReplied(i, reply));
    QueryDecides(w, i, reply);
    hide Step;
  }

  lemma OwnSegmentAsks(w: World, a: Action, i: OpId)
    requires Bounded(w) && Asks(w, i) && Enabled(w, a) && Concerns(a, i)
    ensures Asks(Step(w, a), i) || AskedBefore(Step(w, a), i)
  {
    assert i < w.nextOp && (a.RecoveryRunsReplied? || a.RecoveryRunsRead? || a.RecoveryRunsRejected?);
    hide Asks, AskedBefore, RecoveryRunsReply, RecoveryRunList, CatchRecovery, Bounded;
    match a
    case RecoveryRunsReplied(op, reply) => ReplyAsks(w, op, reply);
    case RecoveryRunsRead(op, runs, joins) => ReadingAsksNoMore(w, op, runs, joins);
    case RecoveryRunsRejected(op) => CatchingAsksNoMore(w, op, w.ops[op], None);
  }

  lemma StepAsks(w: World, a: Action, i: OpId)
    requires Bounded(w) && Asks(w, i)
    ensures Asks(Step(w, a), i) || AskedBefore(Step(w, a), i)
  {
    hide Step, Enabled;
    if !Enabled(w, a) {
      NothingHappens(w, a);
    } else if Concerns(a, i) {
      OwnSegmentAsks(w, a, i);
    } else {
      OthersLeaveItAlone(w, a, i);
    }
  }

  lemma StepKeepsAsked(w: World, a: Action, i: OpId)
    requires Inv(w) && AskedBefore(w, i)
    ensures AskedBefore(Step(w, a), i)
  {
    if a != DoReset {
      hide Step;
      StepMoves(w, a);
    }
  }

  lemma {:induction false} PlayKeepsAsked(w: World, actions: seq<Action>, i: OpId)
    requires Inv(w) && AskedBefore(w, i)
    ensures AskedBefore(Play(w, actions), i)
    decreases |actions|
  {
    hide Step, Inv, AskedBefore;
    if actions != [] {
      StepKeepsInv(w, actions[0]);
      StepKeepsAsked(w, actions[0], i);
      PlayKeepsAsked(Step(w, actions[0]), actions[1..], i);
    }
  }

  lemma {:induction false} PlayAsks(w: World, actions: seq<Action>, i: OpId)
    requires Inv(w) && Asks(w, i) && InRecovery(Play(w, actions), i, AwaitRunList)
    ensures Inv(Play(w, actions)) && Asks(Play(w, actions), i)
    decreases |actions|
  {
    hide Step, Inv;
    if actions != [] {
      assert Bounded(w) by { InvBounds(w); }
      StepKeepsInv(w, actions[0]);
      StepAsks(w, actions[0], i);
      if AskedBefore(Step(w, actions[0]), i) {
        PlayKeepsAsked(Step(w, actions[0]), actions[1..], i);
      } else {
        PlayAsks(Step(w, actions[0]), actions[1..], i);
      }
    }
  }

  lemma StartedRecoveryAsks(w: World, ws: WorkspaceId, provided: Option<string>)
    requires Bounded(w) && w.nextOp in Step(w, DoRecover(ws, provided)).ops
    ensures Asks(Step(w, DoRecover(ws, provided)), w.nextOp)
  {
    hide ChosenThread;
  }

  lemma EndedRecoveryReturns(v: World, i: OpId, run: RunId, outcome: StreamOutcome, later: seq<Action>)
    requires Inv(v) && Recovers(v, i, run)
    ensures i in v.ops && v.ops[i].RecoveryOp?
    ensures var x := Step(v, RecoveryStreamEnded(i, Some(outcome)));
            var load := if run.owner in v.refreshing then v.refreshing[run.owner] else v.nextOp;
            var y := Play(x, later);
            && x.store == v.store.(currentAssistant := None, isSending := false, requestId := None, requestWorkspace := None, stream := None)
            && (i in y.ops && load !in y.ops ==>
                  var z := Step(y, RecoveryRefreshed(i));
                  i in z.results && z.results[i] == Ended(v, i, outcome)
                  && z.store == y.store && z.recovering == y.recovering - {run.owner})
  {
    hide Step, Inv, Recovers, Refreshes, Returns, Ended;
    EndedStreamRefreshes(v, i, run, outcome);
    var x, result := Step(v, RecoveryStreamEnded(i, Some(outcome))), Ended(v, i, outcome);
    StepKeepsInv(v, RecoveryStreamEnded(i, Some(outcome)));
    RefreshingReturns(v, x, i, run.owner, result);
    var load := if run.owner in v.refreshing then v.refreshing[run.owner] else v.nextOp;
    PlayReturns(x, later, i, run.owner, load, result);
    var y := Play(x, later);
    if i in y.ops {
      ReturnIsTheResult(y, i, run.owner, load, result);
    }
  }

  lemma ReadingIsEnabled(u: World, i: OpId, runs: seq<Run>)
    requires Enabled(u, RecoveryRunsRead(i, runs, true))
    ensures InRecovery(u, i, AwaitRunList)
  {
  }

  lemma FollowedFromTheStart(w: World, ws: WorkspaceId, provided: Option<string>, waiting: seq<Action>, runs: seq<Run>,
                             run: RunId, streaming: seq<Action>)
    requires Inv(w) && Locked(w) && DoReset !in waiting && DoReset !in streaming
    requires w.nextOp in Step(w, DoRecover(ws, provided)).ops
    requires Enabled(Play(Step(w, DoRecover(ws, provided)), waiting), RecoveryRunsRead(w.nextOp, runs, true))
    requires var joined := Step(Play(Step(w, DoRecover(ws, provided)), waiting), RecoveryRunsRead(w.nextOp, runs, true));
             Recovers(joined, w.nextOp, run) && Recovers(Play(joined, streaming), w.nextOp, run)
    ensures var joined := Step(Play(Step(w, DoRecover(ws, provided)), waiting), RecoveryRunsRead(w.nextOp, runs, true));
            var v := Play(joined, streaming);
            && Inv(v) && w.nextOp in v.ops && v.ops[w.nextOp].RecoveryOp?
            && v.ops[w.nextOp].launched == LastMission(Delivered(streaming, w.nextOp))
  {
    hide Step, Inv, Locked, Recovers, Delivered, LastMission, Enabled;
    var i, start, read := w.nextOp, DoRecover(ws, provided), RecoveryRunsRead(w.nextOp, runs, true);
    assert Bounded(w) by { InvBounds(w); }
    StartedRecoveryAsks(w, ws, provided);
    StepKeepsInv(w, start);
    StepKeepsLock(w, start);
    PlayKeepsLock(Step(w, start), waiting);
    var u := Play(Step(w, start), waiting);
    assert InRecovery(u, i, AwaitRunList) by { ReadingIsEnabled(u, i, runs); }
    PlayAsks(Step(w, start), waiting, i);
    var joined := Step(u, read);
    StepKeepsInv(u, read);
    StepKeepsLock(u, read);
    JoiningKeepsLaunched(u, i, runs, run);
    RecoversFacts(joined, i, run);
    PlayFollows(joined, streaming, i, run);
  }

  /**
   A recovery that joins a run and follows it to the end of the stream. Whatever runs in between, it returns, once the
   history has been refreshed, the last mission its own stream announced, or that the run completed; a stream that failed or
   was cancelled returns that. The end of the stream gives the store back and leaves every list as it is.
   */
  lemma RecoveryReturnsWhatItsStreamSaid(
    w: World, ws: WorkspaceId, provided: Option<string>, waiting: seq<Action>, runs: seq<Run>, run: RunId,
    streaming: seq<Action>, outcome: StreamOutcome, later: seq<Action>)
    requires Inv(w) && Locked(w) && DoReset !in waiting && DoReset !in streaming
    requires w.nextOp in Step(w, DoRecover(ws, provided)).ops
    requires Enabled(Play(Step(w, DoRecover(ws, provided)), waiting), RecoveryRunsRead(w.nextOp, runs, true))
    requires var joined := Step(Play(Step(w, DoRecover(ws, provided)), waiting), RecoveryRunsRead(w.nextOp, runs, true));
             Recovers(joined, w.nextOp, run) && Recovers(Play(joined, streaming), w.nextOp, run)
    ensures var i := w.nextOp;
            var joined := Step(Play(Step(w, DoRecover(ws, provided)), waiting), RecoveryRunsRead(i, runs, true));
            var v := Play(joined, streaming);
            var x := Step(v, RecoveryStreamEnded(i, Some(outcome)));
            var load := if run.owner in v.refreshing then v.refreshing[run.owner] else v.nextOp;
            var y := Play(x, later);
            && x.store == v.store.(currentAssistant := None, isSending := false, requestId := None, requestWorkspace := None, stream := None)
            && (i in y.ops && load !in y.ops ==>
                  var z := Step(y, RecoveryRefreshed(i));
                  i in z.results && z.results[i] == ResultOf(outcome, Delivered(streaming, i))
                  && z.store == y.store && z.recovering == y.recovering - {run.owner})
  {
    hide Step, Inv, Locked, Recovers, Delivered, LastMission, Enabled;
    FollowedFromTheStart(w, ws, provided, waiting, runs, run, streaming);
    var joined := Step(Play(Step(w, DoRecover(ws, provided)), waiting), RecoveryRunsRead(w.nextOp, runs, true));
    EndedRecoveryReturns(Play(joined, streaming), w.nextOp, run, outcome, later);
  }
}
