/**
 Which callbacks of a recovery still act. A recovery's request id and message id are derived from its run, so
 rejoining a run revives the callbacks of an earlier recovery of it, and blocks go to the run's first answer.
 */
module ChatRejoin {
  import opened Wrappers
  import opened ChatProtocol
  import opened ChatInvariants

  lemma CallbackActs(w: World, op: OpId, run: RunId, item: StreamItem)
    requires Inv(w) && op in w.channels && w.channels[op] == RecoveryChannel(run.owner, run)
    ensures Step(w, Callback(op, item)).store ==
              if w.store.requestId == Some(RecoveryRequest(run)) then Reduce(w.store, ItemEvent(item)) else w.store
  {
    hide Reduce;
  }

  /** In a reachable state a recovery's callback acts exactly while some recovery of its run owns the store. */
  lemma RecoveryCallbackActsExactlyOnItsRun(actions: seq<Action>, op: OpId, run: RunId, item: StreamItem)
    requires var w := Play(INITIAL_WORLD, actions);
             op in w.channels && w.channels[op] == RecoveryChannel(run.owner, run)
    ensures var w := Play(INITIAL_WORLD, actions);
            Step(w, Callback(op, item)).store ==
              if w.store.requestId == Some(RecoveryRequest(run)) then Reduce(w.store, ItemEvent(item)) else w.store
  {
    hide Reduce;
    assert Inv(INITIAL_WORLD);
    PlayKeepsInv(INITIAL_WORLD, actions);
    CallbackActs(Play(INITIAL_WORLD, actions), op, run, item);
  }

  lemma CurrentCallbackActs(v: World, op: OpId, run: RunId, item: StreamItem)
    requires op in v.channels && v.channels[op] == RecoveryChannel(run.owner, run)
    requires IsCurrentRecovery(v.store, run.owner, run)
    ensures Step(v, Callback(op, item)).store == Reduce(v.store, ItemEvent(item))
  {
    hide Reduce;
  }

  lemma {:induction false} PlayConcat(w: World, first: seq<Action>, second: seq<Action>)
    ensures Play(w, first + second) == Play(Play(w, first), second)
    decreases |first|
  {
    hide Step;
    if first == [] {
      assert first + second == second;
    } else {
      assert (first + second)[1..] == first[1..] + second;
      PlayConcat(Step(w, first[0]), first[1..], second);
    }
  }

  lemma PlayOne(w: World, a: Action)
    ensures Play(w, [a]) == Step(w, a)
  {
    hide Step;
    assert Play(Step(w, a), [a][1..]) == Step(w, a);
  }

  lemma PlayThree(w: World, a: Action, b: Action, c: Action)
    ensures Play(w, [a, b, c]) == Step(Step(Step(w, a), b), c)
  {
    hide Step;
    assert [a] + [b] + [c] == [a, b, c];
    PlayConcat(w, [a] + [b], [c]);
    PlayConcat(w, [a], [b]);
    PlayOne(w, a);
    PlayOne(Step(w, a), b);
    PlayOne(Step(Step(w, a), b), c);
  }

  // ---------- Joining a run ----------

  /** The segments by which a workspace joins a run, up to the opened stream. */
  function Joining(op: OpId, run: RunId, thread: string): seq<Action> {
    [DoRecover(run.owner, Some(thread)), RecoveryRunsReplied(op, Ok), RecoveryRunsRead(op, [Run(run, true, 0)], true)]
  }

  /** What joining a run needs: the workspace shown, nothing being sent, its lock free, a thread to ask. */
  predicate MayJoin(w: World, run: RunId, thread: string) {
    MayRecover(w, run.owner) && run.owner !in w.recovering && Trim(thread) != ""
  }

  function Placeholder(run: RunId): Message {
    Message(RecoveryMessageId(run), Assistant, [])
  }

  /** Recovery `n` follows `run` with an answer at the end of the list. */
  predicate Joined(v: World, w: World, n: OpId, run: RunId) {
    && v.store.active == Some(run.owner) && v.store.requestId == Some(RecoveryRequest(run))
    && v.store.currentAssistant == Some(RecoveryMessageId(run)) && v.store.finalized == w.store.finalized
    && v.store.messages == w.store.messages + [Placeholder(run)]
    && v.channels == w.channels[n := RecoveryChannel(run.owner, run)]
    && v.ops.Keys == w.ops.Keys + {n} && InRecovery(v, n, AwaitRun(run)) && v.ops[n].ws == run.owner
    && v.nextOp == n + 1 && v.refreshing == w.refreshing && v.recovering == w.recovering + {run.owner}
  }

  /** Between the call and the stream nothing is shown yet. */
  predicate AsksFor(v: World, w: World, n: OpId, run: RunId, phase: RecoveryPhase) {
    && v.store == w.store && v.channels == w.channels && v.ops.Keys == w.ops.Keys + {n}
    && InRecovery(v, n, phase) && v.ops[n].ws == run.owner
    && v.nextOp == n + 1 && v.refreshing == w.refreshing && v.recovering == w.recovering + {run.owner}
  }

  lemma AskingForRuns(w: World, run: RunId, thread: string)
    requires MayJoin(w, run, thread)
    ensures AsksFor(Step(w, DoRecover(run.owner, Some(thread))), w, w.nextOp, run, AwaitRuns)
  {
    hide Trim;
    assert StartRecovery(w, run.owner, Some(thread)).ops
        == w.ops[w.nextOp := RecoveryOp(run.owner, Trim(thread), AwaitRuns, None)];
  }

  lemma RunsAreComing(v: World, w: World, n: OpId, run: RunId)
    requires AsksFor(v, w, n, run, AwaitRuns)
    ensures AsksFor(Step(v, RecoveryRunsReplied(n, Ok)), w, n, run, AwaitRunList)
  {
    assert RecoveryRunsReply(v, n, Ok).ops == v.ops[n := v.ops[n].(recovery := AwaitRunList)];
  }

  lemma RunsAreRead(v: World, w: World, n: OpId, run: RunId)
    requires AsksFor(v, w, n, run, AwaitRunList) && MayRecover(w, run.owner)
    ensures Joined(Step(v, RecoveryRunsRead(n, [Run(run, true, 0)], true)), w, n, run)
  {
    hide Trim;
    assert LatestActive([Run(run, true, 0)]) == Some(Run(run, true, 0));
    var begun := BeginRecoveryTurn(w.store, run.owner, run);
    assert begun.messages == w.store.messages + [Placeholder(run)];
    hide BeginRecoveryTurn, LatestActive;
    assert Step(v, RecoveryRunsRead(n, [Run(run, true, 0)], true)) == RecoveryRunList(v, n, [Run(run, true, 0)], true);
  }

  lemma JoiningJoins(w: World, run: RunId, thread: string)
    requires MayJoin(w, run, thread)
    ensures Joined(Play(w, Joining(w.nextOp, run, thread)), w, w.nextOp, run)
  {
    var n := w.nextOp;
    var a, b, c := DoRecover(run.owner, Some(thread)), RecoveryRunsReplied(n, Ok), RecoveryRunsRead(n, [Run(run, true, 0)], true);
    PlayThree(w, a, b, c);
    hide Step, Joined, AsksFor;
    AskingForRuns(w, run, thread);
    RunsAreComing(Step(w, a), w, n, run);
    RunsAreRead(Step(Step(w, a), b), w, n, run);
  }

  /**
   In any world where recovery `op` of a run has returned but its stream can still call back, joining the run
   again lets those late callbacks write.
   */
  lemma LateCallbacksAct(w: World, op: OpId, run: RunId, thread: string, item: StreamItem)
    requires op in w.channels && w.channels[op] == RecoveryChannel(run.owner, run) && op !in w.ops && op < w.nextOp
    requires MayJoin(w, run, thread)
    ensures var v := Play(w, Joining(w.nextOp, run, thread));
            op !in v.ops && Step(v, Callback(op, item)).store == Reduce(v.store, ItemEvent(item))
  {
    hide Reduce, Trim, Step, Joining;
    JoiningJoins(w, run, thread);
    CurrentCallbackActs(Play(w, Joining(w.nextOp, run, thread)), op, run, item);
  }

  // ---------- A run that is joined twice ----------

  /** What never changes while the only recovery goes on and returns: its callback, its answer, the shown workspace. */
  predicate Answered(w: World, run: RunId, block: Block) {
    && w.store.active == Some(run.owner) && 0 in w.channels && w.channels[0] == RecoveryChannel(run.owner, run)
    && w.store.messages == [Message(RecoveryMessageId(run), Assistant, [block])]
    && w.store.finalized == {RecoveryMessageId(run)}
  }

  predicate Following(w: World, run: RunId) {
    && w.store.requestId == Some(RecoveryRequest(run)) && w.ops.Keys == {0} && InRecovery(w, 0, AwaitRun(run))
    && w.ops[0].ws == run.owner && w.nextOp == 1 && w.refreshing == map[] && w.recovering == {run.owner}
  }

  /** The turn is over, and the history is being loaded again. */
  predicate Refreshing(w: World, run: RunId) {
    && !w.store.isSending && w.ops.Keys == {0, 1} && w.ops[1].LoadOp? && w.nextOp == 2 && w.recovering == {run.owner}
    && w.ops[0].RecoveryOp? && w.ops[0].ws == run.owner && w.ops[0].recovery.AwaitRefresh? && w.ops[0].recovery.load == 1
  }

  predicate Returned(w: World) {
    !w.store.isSending && w.ops == map[] && w.nextOp == 2 && w.recovering == {}
  }

  /** Nothing has happened yet but showing a workspace. */
  predicate Shown(w: World, ws: WorkspaceId) {
    && w.store.active == Some(ws) && !w.store.isSending && w.store.messages == [] && w.store.finalized == {}
    && w.ops == map[] && w.nextOp == 0 && w.channels == map[] && w.refreshing == map[] && w.recovering == {}
  }

  lemma ShowingFirst(ws: WorkspaceId)
    ensures Shown(Step(INITIAL_WORLD, DoActivate(ws)), ws)
  {
  }

  lemma BlockReplaces(s: Store, run: RunId, block: Block)
    requires s.messages == [Placeholder(run)] && s.currentAssistant == Some(RecoveryMessageId(run)) && s.finalized == {}
    ensures var t := Reduce(s, FinalizeBlock(block));
            && t.messages == [Message(RecoveryMessageId(run), Assistant, [block])]
            && t.finalized == {RecoveryMessageId(run)}
            && t.active == s.active && t.requestId == s.requestId
  {
    assert FindIndex(s.messages, RecoveryMessageId(run)) == Some(0);
    assert Reblocked(s.messages, 0, [block]) == [Message(RecoveryMessageId(run), Assistant, [block])];
  }

  lemma BlockArrives(v: World, w: World, run: RunId, block: Block)
    requires Shown(w, run.owner) && Joined(v, w, 0, run)
    ensures var x := Step(v, Callback(0, Final(block))); Answered(x, run, block) && Following(x, run)
  {
    hide Reduce, LaunchedBy;
    assert v.store.messages == [Placeholder(run)];
    BlockReplaces(v.store, run, block);
    assert Step(v, Callback(0, Final(block))) == Deliver(v, 0, Final(block));
  }

  lemma StreamBreaks(x: World, run: RunId, block: Block)
    requires Answered(x, run, block) && Following(x, run)
    ensures var y := Step(x, RecoveryStreamEnded(0, Some(StreamFailed("")))); Answered(y, run, block) && Refreshing(y, run)
  {
    hide ReadMessages;
    assert IsCurrentRecovery(x.store, run.owner, run);
    assert Step(x, RecoveryStreamEnded(0, Some(StreamFailed("")))) == RecoveryOutcome(x, 0, Some(StreamFailed("")));
  }

  lemma RefreshFails(y: World, run: RunId, block: Block)
    requires Answered(y, run, block) && Refreshing(y, run)
    ensures var z := Step(Step(y, LoadReplied(1, None)), RecoveryRefreshed(0)); Answered(z, run, block) && Returned(z)
  {
  }

  /** A run is joined and answers, its stream breaks, the refresh fails, and the recovery returns. */
  function BrokenRecovery(run: RunId, thread: string, block: Block): seq<Action> {
    [DoActivate(run.owner)] + Joining(0, run, thread)
    + [Callback(0, Final(block)), RecoveryStreamEnded(0, Some(StreamFailed("")))]
    + [LoadReplied(1, None), RecoveryRefreshed(0)]
  }

  lemma PlayTwo(w: World, a: Action, b: Action)
    ensures Play(w, [a, b]) == Step(Step(w, a), b)
  {
    hide Step;
    assert [a] + [b] == [a, b];
    PlayConcat(w, [a], [b]);
    PlayOne(w, a);
    PlayOne(Step(w, a), b);
  }

  lemma ReachableInv(actions: seq<Action>)
    ensures Inv(Play(INITIAL_WORLD, actions))
  {
    assert Inv(INITIAL_WORLD);
    PlayKeepsInv(INITIAL_WORLD, actions);
  }

  lemma BrokenRecoveryReturns(run: RunId, thread: string, block: Block)
    requires Trim(thread) != ""
    ensures var w := Play(INITIAL_WORLD, BrokenRecovery(run, thread, block));
            Answered(w, run, block) && Returned(w) && Inv(w)
  {
    hide Trim, Inv, Answered, Following, Refreshing, Returned, Joined;
    var shown := Step(INITIAL_WORLD, DoActivate(run.owner));
    ShowingFirst(run.owner);
    assert MayJoin(shown, run, thread) && shown.nextOp == 0;
    PlayOne(INITIAL_WORLD, DoActivate(run.owner));
    hide Step, MayJoin;
    JoiningJoins(shown, run, thread);
    var a, b, c, d := Callback(0, Final(block)), RecoveryStreamEnded(0, Some(StreamFailed(""))), LoadReplied(1, None), RecoveryRefreshed(0);
    var start, joining := [DoActivate(run.owner)], Joining(0, run, thread);
    PlayConcat(INITIAL_WORLD, start, joining);
    PlayConcat(INITIAL_WORLD, start + joining, [a, b]);
    PlayConcat(INITIAL_WORLD, start + joining + [a, b], [c, d]);
    var v := Play(INITIAL_WORLD, start + joining);
    BlockArrives(v, shown, run, block);
    StreamBreaks(Step(v, a), run, block);
    PlayTwo(v, a, b);
    var y := Step(Step(v, a), b);
    RefreshFails(y, run, block);
    PlayTwo(y, c, d);
    ReachableInv(BrokenRecovery(run, thread, block));
  }

  lemma LateBlock(v: World, w: World, op: OpId, run: RunId, first: Block, later: Block)
    requires Answered(w, run, first) && Joined(v, w, 2, run) && Inv(v)
    requires op == 0 || op == 2
    ensures Step(v, Callback(op, Final(later))).store.messages
         == [Message(RecoveryMessageId(run), Assistant, [first, later]), Placeholder(run)]
  {
    hide Inv;
    var id := RecoveryMessageId(run);
    CallbackActs(v, op, run, Final(later));
    assert v.store.messages == [Message(id, Assistant, [first]), Placeholder(run)];
    assert FindIndex(v.store.messages, id) == Some(0);
    assert [first] + [later] == [first, later];
  }

  lemma AnsweredIsShown(w: World, run: RunId, block: Block)
    requires Answered(w, run, block)
    ensures w.store.active == Some(run.owner)
  {
  }

  /**
   A recovery that has returned writes again. Once the run of a broken recovery is joined again, a late callback
   of recovery 0 acts just like one of recovery 2, which is the one in flight; and since the answers of a run
   share one id, the block is appended to the first of them while the new one stays empty.
   */
  lemma ReturnedRecoveryWritesAgain(run: RunId, thread: string, first: Block, later: Block, op: OpId)
    requires Trim(thread) != "" && (op == 0 || op == 2)
    ensures var v := Play(INITIAL_WORLD, BrokenRecovery(run, thread, first) + Joining(2, run, thread));
            && 0 !in v.ops && InRecovery(v, 2, AwaitRun(run))
            && Step(v, Callback(op, Final(later))).store.messages
               == [Message(RecoveryMessageId(run), Assistant, [first, later]), Placeholder(run)]
  {
    hide Trim, Inv, Answered, Step, BrokenRecovery, Joining;
    var w := Play(INITIAL_WORLD, BrokenRecovery(run, thread, first));
    BrokenRecoveryReturns(run, thread, first);
    assert w.store.active == Some(run.owner) by { AnsweredIsShown(w, run, first); }
    JoiningJoins(w, run, thread);
    PlayConcat(INITIAL_WORLD, BrokenRecovery(run, thread, first), Joining(2, run, thread));
    var v := Play(w, Joining(2, run, thread));
    ReachableInv(BrokenRecovery(run, thread, first) + Joining(2, run, thread));
    LateBlock(v, w, op, run, first, later);
  }
}
