/**
 What every interleaving keeps, resets included: the visible list is the stored one, the request
 fields agree with each other and with an operation in flight, the messages of a live turn stay
 in the list, and a send that lost the store has had its transport aborted.
 */
module ChatInvariants {
  import opened Wrappers
  import opened ChatProtocol

  predicate Consistent(s: Store) {
    && s.messages == StoredMessages(s, Key(s.active))
    && (s.isSending <==> s.requestId.Some?)
    && (s.isSending <==> s.requestWorkspace.Some?)
    && (s.requestWorkspace.Some? ==> s.active == s.requestWorkspace)
    && (s.stream.Some? || s.abortController.Some? ==> s.isSending)
  }

  predicate HasMessage(messages: seq<Message>, id: MessageId, role: Role) {
    exists m | m in messages :: m.id == id && m.role == role
  }

  /** A send that holds the store also holds its transport and its messages; one that does not was aborted. */
  predicate SendOk(w: World, i: OpId, o: Op)
    requires o.SendOp?
  {
    var s := w.store;
    if s.requestId != Some(SendRequest(i)) then i in w.aborted
    else
      && s.requestWorkspace == Some(o.ws)
      && HasMessage(s.messages, o.userMessage, User)
      && (o.phase.AwaitOutcome? ==> HasMessage(s.messages, o.phase.assistant, Assistant))
      && (if o.phase.AwaitOutcome? then s.stream == Some(i) && s.abortController.None?
          else s.abortController == Some(i) && s.stream.None?)
  }

  predicate OpOk(w: World, i: OpId)
    requires i in w.ops
  {
    match w.ops[i]
    case SendOp(_, _, _, _, _) => SendOk(w, i, w.ops[i])
    case RecoveryOp(ws, _, recovery, _) => recovery.AwaitRun? ==> recovery.run.owner == ws
    case LoadOp(_, _, _, _) => true
  }

  predicate Follows(o: Op, run: RunId) {
    o.RecoveryOp? && o.recovery == AwaitRun(run)
  }

  /** The current request id belongs to an operation still in flight; the answer of a recovery is listed. */
  predicate RequestOwned(w: World) {
    match w.store.requestId
    case None => true
    case Some(SendRequest(i)) => i in w.ops && w.ops[i].SendOp?
    case Some(RecoveryRequest(run)) =>
      && w.store.requestWorkspace == Some(run.owner)
      && w.store.abortController.None?
      && HasMessage(w.store.messages, RecoveryMessageId(run), Assistant)
      && exists i | i in w.ops :: Follows(w.ops[i], run)
  }

  predicate Bounded(w: World) {
    && (forall i | i in w.ops :: i < w.nextOp)
    && (forall i | i in w.channels :: i < w.nextOp)
    && (forall i | i in w.results :: i < w.nextOp && i !in w.ops)
  }

  predicate Inv(w: World) {
    Consistent(w.store) && Bounded(w) && RequestOwned(w) && forall i | i in w.ops :: OpOk(w, i)
  }

  // ---------- The state record ----------

  predicate SameTurn(s: Store, t: Store) {
    && s.active == t.active && s.isSending == t.isSending
    && s.requestId == t.requestId && s.requestWorkspace == t.requestWorkspace
    && s.abortController == t.abortController && s.stream == t.stream
  }

  /** Nothing is dropped from a list and no message changes its id or role. */
  predicate Extends(before: seq<Message>, after: seq<Message>) {
    forall m | m in before :: HasMessage(after, m.id, m.role)
  }

  lemma ReblockedExtends(messages: seq<Message>, i: nat, blocks: seq<Block>)
    requires i < |messages|
    ensures Extends(messages, Reblocked(messages, i, blocks))
  {
    var after := Reblocked(messages, i, blocks);
    forall m | m in messages
      ensures HasMessage(after, m.id, m.role)
    {
      var j :| 0 <= j < |messages| && messages[j] == m;
      assert after[j] in after;
    }
  }

  lemma SyncKeepsTurn(s: Store, messages: seq<Message>)
    requires Consistent(s)
    ensures SameTurn(s, SyncActive(s, messages)) && Consistent(SyncActive(s, messages))
  {
  }

  lemma AppendExtends(messages: seq<Message>, m: Message)
    ensures Extends(messages, messages + [m]) && HasMessage(messages + [m], m.id, m.role)
  {
  }

  lemma ExtendsSelf(messages: seq<Message>)
    ensures Extends(messages, messages)
  {
  }

  lemma BlockKeepsTurn(s: Store, i: nat, blocks: seq<Block>)
    requires Consistent(s) && i < |s.messages|
    ensures var t := SyncActive(s, Reblocked(s.messages, i, blocks));
            SameTurn(s, t) && Consistent(t) && Extends(s.messages, t.messages)
  {
    SyncKeepsTurn(s, Reblocked(s.messages, i, blocks));
    ReblockedExtends(s.messages, i, blocks);
  }

  lemma ReduceKeepsTurn(s: Store, e: Event)
    requires Consistent(s)
    ensures SameTurn(s, Reduce(s, e)) && Consistent(Reduce(s, e))
    ensures Extends(s.messages, Reduce(s, e).messages)
    ensures e.AssistantStart? ==> HasMessage(Reduce(s, e).messages, e.id, Assistant)
    ensures e.UserMessage? ==> HasMessage(Reduce(s, e).messages, e.id, User)
  {
    ExtendsSelf(s.messages);
    match e
    case UserMessage(id, content, blocks) =>
      var m := Message(id, User, if blocks != [] then blocks else [TextBlock(content)]);
      SyncKeepsTurn(s, s.messages + [m]);
      AppendExtends(s.messages, m);
    case AssistantStart(id) =>
      SyncKeepsTurn(s, s.messages + [Message(id, Assistant, [])]);
      AppendExtends(s.messages, Message(id, Assistant, []));
    case AssistantBlock(block) =>
      var i := AssistantIndex(s.messages, s.currentAssistant);
      if i.Some? {
        BlockKeepsTurn(s, i.value, Appended(s.messages[i.value].blocks, block));
      }
    case FinalizeBlock(block) =>
      if s.currentAssistant.Some? {
        var i := FindIndex(s.messages, s.currentAssistant.value);
        if i.Some? {
          BlockKeepsTurn(s, i.value, [block]);
          BlockKeepsTurn(s, i.value, s.messages[i.value].blocks + [block]);
        }
      }
    case Completion =>
  }

  lemma ActivateKeepsConsistent(s: Store, ws: WorkspaceId)
    requires Consistent(s)
    ensures Consistent(Activate(s, ws)) && Activate(s, ws).active == Some(ws)
    ensures Switches(s, ws) ==> Activate(s, ws).requestId.None?
    ensures !Switches(s, ws) ==> SameTurn(s.(active := Some(ws)), Activate(s, ws))
    ensures !Switches(s, ws) && s.active.Some? ==> Activate(s, ws).messages == s.messages
  {
  }

  // ---------- One segment ----------

  /** Changing only the lists, and losing no message of the active one, keeps the invariant. */
  lemma KeepsInvOnTurn(w: World, s: Store)
    requires Inv(w) && Consistent(s) && SameTurn(w.store, s)
    requires w.store.isSending ==> Extends(w.store.messages, s.messages)
    ensures Inv(w.(store := s))
  {
  }

  lemma SetActiveKeepsInv(w: World, ws: WorkspaceId)
    requires Inv(w)
    ensures Inv(SetActiveWorkspace(w, ws))
  {
    ActivateKeepsConsistent(w.store, ws);
    var v := SetActiveWorkspace(w, ws);
    forall i | i in v.ops
      ensures OpOk(v, i)
    {
      assert OpOk(w, i);
    }
  }

  lemma HandleEventKeepsInv(w: World, e: Event, ws: Option<WorkspaceId>)
    requires Inv(w)
    ensures Inv(HandleEvent(w, e, ws))
  {
    var shown := if ws.Some? then SetActiveWorkspace(w, ws.value) else w;
    if ws.Some? {
      SetActiveKeepsInv(w, ws.value);
    }
    ReduceKeepsTurn(shown.store, e);
    KeepsInvOnTurn(shown, Reduce(shown.store, e));
  }

  lemma ResetKeepsInv(w: World)
    requires Inv(w)
    ensures Inv(Reset(w))
  {
  }

  predicate IsNewOp(w: World, i: OpId, o: Op) {
    i == w.nextOp && (o.LoadOp? || (o.RecoveryOp? && o.recovery.AwaitRuns?))
  }

  predicate Owns(w: World, i: OpId)
    requires i in w.ops
  {
    match w.store.requestId
    case None => false
    case Some(SendRequest(j)) => i == j
    case Some(RecoveryRequest(run)) => Follows(w.ops[i], run)
  }

  /** The owner of the current request is all that ownership depends on. */
  lemma RequestStaysOwned(w: World, v: World)
    requires RequestOwned(w) && v.store == w.store
    requires forall i | i in w.ops && Owns(w, i) :: i in v.ops && v.ops[i] == w.ops[i]
    ensures RequestOwned(v)
  {
  }

  lemma OpStaysOk(w: World, v: World, i: OpId)
    requires v.store == w.store && w.aborted <= v.aborted
    requires i in w.ops && i in v.ops && v.ops[i] == w.ops[i] && OpOk(w, i)
    ensures OpOk(v, i)
  {
  }

  /** Starting something that does not touch the state record keeps the invariant. */
  lemma GrowKeepsInv(w: World, v: World)
    requires Inv(w) && v.store == w.store && w.aborted <= v.aborted && w.nextOp <= v.nextOp
    requires v.channels == w.channels && v.results == w.results
    requires forall i | i in w.ops :: i in v.ops && v.ops[i] == w.ops[i]
    requires forall i | i in v.ops :: i in w.ops || (IsNewOp(w, i, v.ops[i]) && i < v.nextOp)
    ensures Inv(v)
  {
    RequestStaysOwned(w, v);
    forall i | i in v.ops
      ensures OpOk(v, i)
    {
      if i in w.ops {
        OpStaysOk(w, v, i);
      }
    }
  }

  lemma StartLoadKeepsInv(w: World, ws: WorkspaceId, force: bool)
    requires Inv(w)
    ensures Inv(StartLoad(w, ws, force))
  {
    GrowKeepsInv(w, StartLoad(w, ws, force));
  }

  lemma RefreshKeepsInv(w: World, ws: WorkspaceId)
    requires Inv(w)
    ensures Inv(Refresh(w, ws))
  {
    GrowKeepsInv(w, Refresh(w, ws));
  }

  /** Dropping an operation keeps the invariant unless the current request is its own. */
  lemma DropKeepsInv(w: World, op: OpId, v: World)
    requires Inv(w) && op in w.ops && !Owns(w, op)
    requires v.store == w.store && v.ops == w.ops - {op} && v.nextOp == w.nextOp && v.channels == w.channels
    requires v.aborted == w.aborted && w.results.Keys <= v.results.Keys <= w.results.Keys + {op}
    ensures Inv(v)
  {
    RequestStaysOwned(w, v);
    forall i | i in v.ops
      ensures OpOk(v, i)
    {
      OpStaysOk(w, v, i);
    }
  }

  lemma HydrateKeepsConsistent(s: Store, ws: WorkspaceId, loaded: seq<Message>)
    requires Consistent(s) && s.requestWorkspace != Some(ws)
    ensures Consistent(Hydrate(s, ws, loaded))
    ensures s.isSending ==> SameTurn(s, Hydrate(s, ws, loaded)) && Hydrate(s, ws, loaded).messages == s.messages
    ensures !s.isSending ==> SameTurn(s.(active := Hydrate(s, ws, loaded).active), Hydrate(s, ws, loaded))
  {
  }

  /** With no turn in progress, any idle state record keeps the invariant. */
  lemma IdleKeepsInv(w: World, s: Store)
    requires Inv(w) && !w.store.isSending && Consistent(s) && !s.isSending
    ensures Inv(w.(store := s))
  {
  }

  lemma FinishLoadKeepsInv(w: World, op: OpId, body: Option<ThreadBody>)
    requires Inv(w) && op in w.ops && w.ops[op].LoadOp?
    ensures Inv(FinishLoad(w, op, body))
  {
    hide Loaded, Epoch;
    var load := w.ops[op];
    var v := FinishLoad(w, op, body);
    var mid := w.(store := v.store);
    if v.store != w.store {
      var named := ThreadNamed(w.store, load.ws, body.value);
      ExtendsSelf(w.store.messages);
      if CanHydrate(w, load) {
        HydrateKeepsConsistent(named, load.ws, Loaded(body.value));
      }
      if w.store.isSending {
        KeepsInvOnTurn(w, v.store);
      } else {
        IdleKeepsInv(w, v.store);
      }
    }
    assert Inv(mid);
    DropKeepsInv(mid, op, v);
  }

  // ---------- Segments of a send ----------

  lemma StartSendKeepsInv(w: World, ws: WorkspaceId, content: string, hasAttachments: bool, userMessage: MessageId)
    requires Inv(w)
    ensures Inv(StartSend(w, ws, content, hasAttachments, userMessage))
  {
    if AcceptsSend(w, content, hasAttachments) {
      var shown := SetActiveWorkspace(w, ws);
      SetActiveKeepsInv(w, ws);
      ActivateKeepsConsistent(w.store, ws);
      var id := w.nextOp;
      var begun := shown.store.(isSending := true, requestId := Some(SendRequest(id)),
                                requestWorkspace := Some(ws), abortController := Some(id));
      ReduceKeepsTurn(begun, UserMessage(userMessage, content, []));
      var v := StartSend(w, ws, content, hasAttachments, userMessage);
      forall i | i in v.ops
        ensures OpOk(v, i)
      {
        assert i != id ==> OpOk(w, i);
      }
    }
  }

  /** Ending a send, whose last words only matter if the store is its own. */
  lemma FinishSendKeepsInv(w: World, s: Store, op: OpId, result: TurnResult)
    requires Inv(w) && op in w.ops && w.ops[op].SendOp?
    requires Consistent(s) && SameTurn(w.store, s)
    requires w.store.requestId == Some(SendRequest(op)) || s == w.store
    ensures Inv(FinishSend(w.(store := s), op, result))
  {
    var v := FinishSend(w.(store := s), op, result);
    if w.store.requestId == Some(SendRequest(op)) {
      forall i | i in v.ops
        ensures OpOk(v, i)
      {
        assert OpOk(w, i);
      }
    } else {
      DropKeepsInv(w, op, v);
    }
  }

  lemma CatchSendKeepsInv(w: World, op: OpId, error: Thrown, placeholder: MessageId)
    requires Inv(w) && op in w.ops && w.ops[op].SendOp?
    ensures Inv(CatchSend(w, op, w.ops[op].ws, error, placeholder))
  {
    var ws := w.ops[op].ws;
    if !IsCurrentSend(w.store, op, ws) || error.isAbort {
      FinishSendKeepsInv(w, w.store, op, Cancelled);
    } else {
      var caption := ErrorCaption(error);
      ReduceKeepsTurn(w.store, AssistantStart(placeholder));
      var started := if w.store.currentAssistant.None? then Reduce(w.store, AssistantStart(placeholder)) else w.store;
      var line := AssistantBlock(StatusLine(caption, SEND_ERROR_RUN, "error", ""));
      ReduceKeepsTurn(started, line);
      ReduceKeepsTurn(Reduce(started, line), Completion);
      FinishSendKeepsInv(w, Reduce(Reduce(started, line), Completion), op, Failed(caption));
    }
  }

  lemma SendThreadReplyKeepsInv(w: World, op: OpId, reply: Reply, placeholder: MessageId)
    requires Inv(w) && InSend(w, op, AwaitThread)
    ensures Inv(SendThreadReply(w, op, reply, placeholder))
  {
    if reply.Rejected? {
      CatchSendKeepsInv(w, op, reply.error, placeholder);
    } else if !IsCurrentSend(w.store, op, w.ops[op].ws) {
      FinishSendKeepsInv(w, w.store, op, Cancelled);
    } else {
      var v := SendThreadReply(w, op, reply, placeholder);
      forall i | i in v.ops
        ensures OpOk(v, i)
      {
        assert OpOk(w, i);
      }
    }
  }

  /** The state record after the thread body was used, up to the moment the stream is opened. */
  lemma AnswerStartedKeepsTurn(s: Store, o: Op, body: ThreadBody, assistant: MessageId)
    requires Consistent(s) && o.SendOp?
    ensures SameTurn(s, AnswerStarted(s, o, body, assistant)) && Consistent(AnswerStarted(s, o, body, assistant))
    ensures Extends(s.messages, AnswerStarted(s, o, body, assistant).messages)
    ensures HasMessage(AnswerStarted(s, o, body, assistant).messages, assistant, Assistant)
  {
  }

  lemma OpenStreamKeepsInv(w: World, op: OpId, assistant: MessageId)
    requires Inv(w) && InSend(w, op, AwaitThreadBody) && IsCurrentSend(w.store, op, w.ops[op].ws)
    requires HasMessage(w.store.messages, assistant, Assistant)
    ensures Inv(SetOp(w.(store := w.store.(stream := Some(op), abortController := None),
                         channels := w.channels[op := SendChannel(w.ops[op].ws)]),
                      op, w.ops[op].(phase := AwaitOutcome(assistant))))
  {
  }

  lemma SendThreadBodyKeepsInv(w: World, op: OpId, body: ThreadBody, assistant: MessageId, fault: Option<Thrown>)
    requires Inv(w) && InSend(w, op, AwaitThreadBody)
    ensures Inv(SendThreadBody(w, op, body, assistant, fault))
  {
    var o := w.ops[op];
    if !IsCurrentSend(w.store, op, o.ws) {
      FinishSendKeepsInv(w, w.store, op, Cancelled);
    } else if body.threadId == "" {
      CatchSendKeepsInv(w, op, Thrown(false, THREAD_INVALID), assistant);
    } else if !o.hadMessages && body.listing.Malformed? {
      var named := ThreadNamed(w.store, o.ws, body);
      KeepsInvOnTurn(w, named);
      CatchSendKeepsInv(w.(store := named), op, body.listing.error, assistant);
    } else {
      var s := AnswerStarted(w.store, o, body, assistant);
      AnswerStartedKeepsTurn(w.store, o, body, assistant);
      KeepsInvOnTurn(w, s);
      var started := w.(store := s);
      if fault.Some? {
        CatchSendKeepsInv(started, op, fault.value, assistant);
      } else {
        OpenStreamKeepsInv(started, op, assistant);
      }
    }
  }

  lemma SendOutcomeKeepsInv(w: World, op: OpId, outcome: StreamOutcome, placeholder: MessageId)
    requires Inv(w) && op in w.ops && w.ops[op].SendOp? && w.ops[op].phase.AwaitOutcome?
    ensures Inv(SendOutcome(w, op, outcome, placeholder))
  {
    var o := w.ops[op];
    if !IsCurrentSend(w.store, op, o.ws) {
      FinishSendKeepsInv(w, w.store, op, Cancelled);
    } else {
      match outcome
      case StreamCancelled =>
        var s := SyncActive(w.store, Without(w.store.messages, o.phase.assistant)).(currentAssistant := None);
        FinishSendKeepsInv(w, s, op, Cancelled);
      case StreamFailed(error) => CatchSendKeepsInv(w, op, Thrown(false, error), placeholder);
      case StreamCompleted =>
        ReduceKeepsTurn(w.store, Completion);
        FinishSendKeepsInv(w, Reduce(w.store, Completion), op,
                           if o.launched.Some? then Launched(o.launched.value) else Completed);
    }
  }

  lemma NoteLaunchKeepsInv(w: World, op: OpId, item: StreamItem)
    requires Inv(w) && op in w.ops
    ensures Inv(SetOp(w, op, NoteLaunch(w.ops[op], item)))
  {
    var v := SetOp(w, op, NoteLaunch(w.ops[op], item));
    if w.store.requestId.Some? && w.store.requestId.value.RecoveryRequest? {
      var run := w.store.requestId.value.run;
      var i :| i in w.ops && Follows(w.ops[i], run);
      assert Follows(v.ops[i], run);
    }
    forall i | i in v.ops
      ensures OpOk(v, i)
    {
      assert OpOk(w, i);
    }
  }

  lemma DeliverKeepsInv(w: World, op: OpId, item: StreamItem)
    requires Inv(w) && op in w.channels
    ensures Inv(Deliver(w, op, item))
  {
    if IsCurrentChannel(w.store, op, w.channels[op]) {
      var s := Reduce(w.store, ItemEvent(item));
      ReduceKeepsTurn(w.store, ItemEvent(item));
      KeepsInvOnTurn(w, s);
      if op in w.ops {
        NoteLaunchKeepsInv(w.(store := s), op, item);
      }
    }
  }

  // ---------- Segments of a recovery ----------

  /** Changing an operation that is not a send, and does not own the request, keeps the invariant. */
  lemma SetOpKeepsInv(w: World, op: OpId, o: Op)
    requires Inv(w) && op in w.ops && !w.ops[op].SendOp? && !o.SendOp?
    requires o.RecoveryOp? && o.recovery.AwaitRun? ==> o.recovery.run.owner == o.ws
    requires !Owns(w, op)
    ensures Inv(SetOp(w, op, o))
  {
    var v := SetOp(w, op, o);
    RequestStaysOwned(w, v);
    forall i | i in v.ops
      ensures OpOk(v, i)
    {
      if i != op {
        OpStaysOk(w, v, i);
      }
    }
  }

  lemma AwaitHistoryKeepsInv(w: World, op: OpId, o: Op, result: TurnResult)
    requires Inv(w) && op in w.ops && w.ops[op].RecoveryOp? && o.RecoveryOp?
    requires !Owns(w, op)
    ensures Inv(AwaitHistory(w, op, o, result))
  {
    RefreshKeepsInv(w, o.ws);
    var refreshed := Refresh(w, o.ws);
    assert refreshed.ops[op] == w.ops[op] && refreshed.store == w.store;
    SetOpKeepsInv(refreshed, op, o.(recovery := AwaitRefresh(RefreshLoad(w, o.ws), result)));
  }

  /** Ending the turn of a recovery keeps the invariant, whatever happens to the lists. */
  lemma EndTurnKeepsInv(w: World, s: Store)
    requires Inv(w) && w.store.requestId.Some? && w.store.requestId.value.RecoveryRequest?
    requires Consistent(s) && SameTurn(w.store, s)
    ensures Inv(w.(store := EndRecoveryTurn(s)))
  {
  }

  lemma CatchRecoveryKeepsInv(w: World, op: OpId, o: Op, run: Option<RunId>)
    requires Inv(w) && op in w.ops && w.ops[op].RecoveryOp? && o.RecoveryOp?
    requires w.ops[op].recovery.AwaitRun? ==> run == Some(w.ops[op].recovery.run)
    ensures Inv(CatchRecovery(w, op, o, run))
  {
    var s := w.store;
    if run.Some? && s.requestId == Some(RecoveryRequest(run.value)) {
      var pruned := SyncActive(s, Without(s.messages, RecoveryMessageId(run.value)));
      EndTurnKeepsInv(w, pruned);
      AwaitHistoryKeepsInv(w.(store := EndRecoveryTurn(pruned)), op, o, Nothing);
    } else {
      AwaitHistoryKeepsInv(w, op, o, Nothing);
      assert w.(store := w.store) == w;
    }
  }

  lemma FinishRecoveryKeepsInv(w: World, op: OpId, result: TurnResult)
    requires Inv(w) && op in w.ops && w.ops[op].RecoveryOp? && !Owns(w, op)
    ensures Inv(FinishRecovery(w, op, w.ops[op].ws, result))
  {
    DropKeepsInv(w, op, FinishRecovery(w, op, w.ops[op].ws, result));
  }

  lemma StartRecoveryKeepsInv(w: World, ws: WorkspaceId, provided: Option<string>)
    requires Inv(w)
    ensures Inv(StartRecovery(w, ws, provided))
  {
    hide Trim;
    GrowKeepsInv(w, StartRecovery(w, ws, provided));
  }

  lemma RecoveryRunsReplyKeepsInv(w: World, op: OpId, reply: Reply)
    requires Inv(w) && InRecovery(w, op, AwaitRuns)
    ensures Inv(RecoveryRunsReply(w, op, reply))
  {
    match reply
    case Rejected(_) => CatchRecoveryKeepsInv(w, op, w.ops[op], None);
    case NotOk => FinishRecoveryKeepsInv(w, op, Nothing);
    case Ok => SetOpKeepsInv(w, op, w.ops[op].(recovery := AwaitRunList));
  }

  lemma BeginTurnFacts(s: Store, ws: WorkspaceId, run: RunId)
    requires Consistent(s) && s.active == Some(ws) && !s.isSending
    ensures var t := BeginRecoveryTurn(s, ws, run);
            Consistent(t) && t.active == Some(ws) && t.isSending && t.requestId == Some(RecoveryRequest(run))
            && t.requestWorkspace == Some(ws) && t.abortController.None? && t.stream.None?
            && HasMessage(t.messages, RecoveryMessageId(run), Assistant)
  {
  }

  lemma JoinKeepsInv(w: World, op: OpId, s: Store, run: RunId)
    requires Inv(w) && InRecovery(w, op, AwaitRunList) && run.owner == w.ops[op].ws && !w.store.isSending
    requires Consistent(s) && s.requestId == Some(RecoveryRequest(run)) && s.requestWorkspace == Some(run.owner)
    requires s.abortController.None? && HasMessage(s.messages, RecoveryMessageId(run), Assistant)
    ensures Inv(SetOp(w.(store := s, channels := w.channels[op := RecoveryChannel(run.owner, run)]),
                      op, w.ops[op].(recovery := AwaitRun(run))))
  {
    var v := SetOp(w.(store := s, channels := w.channels[op := RecoveryChannel(run.owner, run)]),
                   op, w.ops[op].(recovery := AwaitRun(run)));
    assert Follows(v.ops[op], run);
    forall i | i in v.ops
      ensures OpOk(v, i)
    {
      assert OpOk(w, i);
    }
  }

  /** The activity epochs play no part in the invariant. */
  lemma EpochsKeepInv(w: World, v: World)
    requires Inv(w) && v == w.(activityEpochs := v.activityEpochs)
    ensures Inv(v)
  {
  }

  lemma RecoveryRunListKeepsInv(w: World, op: OpId, runs: seq<Run>, joins: bool)
    requires Inv(w) && InRecovery(w, op, AwaitRunList)
    requires forall r | r in runs :: r.id.owner == w.ops[op].ws
    ensures Inv(RecoveryRunList(w, op, runs, joins))
  {
    var o := w.ops[op];
    var latest := LatestActive(runs);
    if latest.None? || !MayRecover(w, o.ws) {
      FinishRecoveryKeepsInv(w, op, Nothing);
    } else {
      var run := latest.value.id;
      var s := BeginRecoveryTurn(w.store, o.ws, run);
      BeginTurnFacts(w.store, o.ws, run);
      var bumped := w.(activityEpochs := Bump(w.activityEpochs, o.ws));
      EpochsKeepInv(w, bumped);
      if joins {
        JoinKeepsInv(bumped, op, s.(stream := Some(op)), run);
      } else {
        var pruned := SyncActive(s, Without(s.messages, RecoveryMessageId(run)));
        SyncKeepsTurn(s, Without(s.messages, RecoveryMessageId(run)));
        IdleKeepsInv(bumped, EndRecoveryTurn(pruned));
        AwaitHistoryKeepsInv(bumped.(store := EndRecoveryTurn(pruned)), op, o, Nothing);
      }
    }
  }

  lemma RecoveryOutcomeKeepsInv(w: World, op: OpId, outcome: Option<StreamOutcome>)
    requires Inv(w) && op in w.ops && w.ops[op].RecoveryOp? && w.ops[op].recovery.AwaitRun?
    ensures Inv(RecoveryOutcome(w, op, outcome))
  {
    var o := w.ops[op];
    assert OpOk(w, op);
    if outcome.None? {
      CatchRecoveryKeepsInv(w, op, o, Some(o.recovery.run));
    } else if !IsCurrentRecovery(w.store, o.ws, o.recovery.run) {
      FinishRecoveryKeepsInv(w, op, Nothing);
    } else {
      EndTurnKeepsInv(w, w.store);
      var result := match outcome.value
                    case StreamCompleted => if o.launched.Some? then Launched(o.launched.value) else Completed
                    case StreamFailed(error) => Failed(error)
                    case StreamCancelled => Cancelled;
      AwaitHistoryKeepsInv(w.(store := EndRecoveryTurn(w.store)), op, o, result);
    }
  }

  lemma RecoveryRefreshedKeepsInv(w: World, op: OpId)
    requires Inv(w) && Enabled(w, RecoveryRefreshed(op))
    ensures Inv(Step(w, RecoveryRefreshed(op)))
  {
    FinishRecoveryKeepsInv(w, op, w.ops[op].recovery.result);
  }

  lemma StopKeepsInv(w: World)
    requires Inv(w)
    ensures Inv(Stop(w))
  {
    GrowKeepsInv(w, Stop(w));
  }

  lemma ClearRefreshKeepsInv(w: World, ws: WorkspaceId, load: OpId)
    requires Inv(w)
    ensures Inv(ClearRefresh(w, ws, load))
  {
  }

  // ---------- Every run ----------

  predicate OfASend(a: Action) {
    a.SendThreadReplied? || a.SendErrorRead? || a.SendBodyRead? || a.SendBodyRejected? || a.SendStreamEnded?
  }

  predicate OfARecovery(a: Action) {
    a.RecoveryRunsReplied? || a.RecoveryRunsRead? || a.RecoveryRunsRejected? || a.RecoveryStreamEnded? || a.RecoveryRefreshed?
  }

  lemma SendStepKeepsInv(w: World, a: Action)
    requires Inv(w) && Enabled(w, a) && OfASend(a)
    ensures Inv(Step(w, a))
  {
    hide Inv, CatchSend, SendThreadReply, SendThreadBody, SendOutcome;
    match a
    case SendThreadReplied(op, reply, spare) => SendThreadReplyKeepsInv(w, op, reply, spare);
    case SendErrorRead(op, error, spare) => CatchSendKeepsInv(w, op, error, spare);
    case SendBodyRead(op, body, spare, fault) => SendThreadBodyKeepsInv(w, op, body, spare, fault);
    case SendBodyRejected(op, error, spare) => CatchSendKeepsInv(w, op, error, spare);
    case SendStreamEnded(op, outcome, spare) => SendOutcomeKeepsInv(w, op, outcome, spare);
  }

  lemma RecoveryStepKeepsInv(w: World, a: Action)
    requires Inv(w) && Enabled(w, a) && OfARecovery(a)
    ensures Inv(Step(w, a))
  {
    hide Inv, CatchRecovery, RecoveryRunsReply, RecoveryRunList, RecoveryOutcome, FinishRecovery;
    match a
    case RecoveryRunsReplied(op, reply) => RecoveryRunsReplyKeepsInv(w, op, reply);
    case RecoveryRunsRead(op, runs, joins) => RecoveryRunListKeepsInv(w, op, runs, joins);
    case RecoveryRunsRejected(op) => CatchRecoveryKeepsInv(w, op, w.ops[op], None);
    case RecoveryStreamEnded(op, ended) => RecoveryOutcomeKeepsInv(w, op, ended);
    case RecoveryRefreshed(op) => RecoveryRefreshedKeepsInv(w, op);
  }

  lemma StepKeepsInv(w: World, a: Action)
    requires Inv(w)
    ensures Inv(Step(w, a))
  {
    hide Inv;
    if !Enabled(w, a) {
    } else if OfASend(a) {
      SendStepKeepsInv(w, a);
    } else if OfARecovery(a) {
      RecoveryStepKeepsInv(w, a);
    } else {
      hide SetActiveWorkspace, HandleEvent, Reset, Stop, StartLoad, FinishLoad, Refresh, ClearRefresh, StartSend, Deliver,
        StartRecovery;
      match a
      case DoActivate(ws) => SetActiveKeepsInv(w, ws);
      case DoEvent(event, target) => HandleEventKeepsInv(w, event, target);
      case DoReset => ResetKeepsInv(w);
      case DoStop => StopKeepsInv(w);
      case DoLoad(ws, force) => StartLoadKeepsInv(w, ws, force);
      case LoadReplied(op, thread) => FinishLoadKeepsInv(w, op, thread);
      case DoRefresh(ws) => RefreshKeepsInv(w, ws);
      case RefreshSettled(ws, op) => ClearRefreshKeepsInv(w, ws, op);
      case DoSend(ws, content, has, user) => StartSendKeepsInv(w, ws, content, has, user);
      case Callback(op, item) => DeliverKeepsInv(w, op, item);
      case DoRecover(ws, provided) => StartRecoveryKeepsInv(w, ws, provided);
    }
  }

  lemma {:induction false} PlayKeepsInv(w: World, actions: seq<Action>)
    requires Inv(w)
    ensures Inv(Play(w, actions))
    decreases |actions|
  {
    if actions != [] {
      StepKeepsInv(w, actions[0]);
      PlayKeepsInv(Step(w, actions[0]), actions[1..]);
    }
  }
}
