/** What single actions do, in the state a user sees: resets, stops, switches, events, refreshes, and how a send fails. */
module ChatActions {
  import opened Wrappers
  import opened ChatProtocol
  import opened ChatInvariants
  import opened ChatEffects
  import opened ChatStreaming
  import opened ChatAnswers
  import opened ChatEndings
  import opened ChatRefresh
  import opened ChatConversation

  // ---------- Resets and stops ----------

  /** A reset leaves a record like the first one and forgets epochs, locks and refreshes; pending operations stay, without a transport. */
  lemma ResetStartsAfresh(w: World)
    ensures var v := Step(w, DoReset);
            && v.store == INITIAL_WORLD.store && v.historyEpochs == INITIAL_WORLD.historyEpochs
            && v.activityEpochs == INITIAL_WORLD.activityEpochs && v.recovering == {} && v.refreshing == map[]
            && v.ops == w.ops && v.nextOp == w.nextOp && v.channels == w.channels && v.results == w.results
            && (forall i :: i in v.aborted <==> i in w.aborted || w.store.abortController == Some(i) || w.store.stream == Some(i))
    ensures INITIAL_WORLD.store == Store(None, map[], map[], [], None, false, None, None, None, None, {})
  {
  }

  /** Stopping aborts the send that holds the store if its stream is not open yet, and does nothing here otherwise. */
  lemma StopAbortsOnlyBeforeTheStream(actions: seq<Action>)
    ensures var w := Play(INITIAL_WORLD, actions);
            var v := Step(w, DoStop);
            match w.store.requestId
            case Some(SendRequest(i)) =>
              i in w.ops && w.ops[i].SendOp?
              && v == if w.ops[i].phase.AwaitOutcome? then w else w.(aborted := w.aborted + {i})
            case _ => v == w
  {
    assert Inv(INITIAL_WORLD);
    PlayKeepsInv(INITIAL_WORLD, actions);
    var w := Play(INITIAL_WORLD, actions);
    if w.store.requestId.Some? && w.store.requestId.value.SendRequest? {
      assert OpOk(w, w.store.requestId.value.op);
    }
  }

  // ---------- Switching ----------

  /** The first workspace that is shown takes over what was written before any was, unless it has a list of its own. */
  lemma FirstWorkspaceTakesOver(s: Store, ws: WorkspaceId)
    requires Consistent(s) && s.active.None?
    ensures var t := Activate(s, ws);
            && t.active == Some(ws)
            && t.messages == (if KeyOf(ws) in s.stored then s.stored[KeyOf(ws)] else s.messages)
            && StoredMessages(t, KeyOf(ws)) == t.messages
            && (forall key | key != KeyOf(ws) :: StoredMessages(t, key) == StoredMessages(s, key))
            && t == s.(active := t.active, messages := t.messages, stored := t.stored)
  {
  }

  /** Showing the workspace that is shown changes nothing, and every other switch aborts the transports of the turn it gives up. */
  lemma SwitchingAbortsTheTurn(w: World, ws: WorkspaceId)
    requires Consistent(w.store)
    ensures var v := Step(w, DoActivate(ws));
            && v == w.(store := v.store, aborted := v.aborted)
            && (w.store.active == Some(ws) ==>
                  v.aborted == w.aborted && v.store == w.store.(stored := v.store.stored)
                  && forall key :: StoredMessages(v.store, key) == StoredMessages(w.store, key))
            && (w.store.active.None? ==> v.aborted == w.aborted)
            && (w.store.active.Some? && w.store.active != Some(ws) ==>
                  forall i :: i in v.aborted <==> i in w.aborted || w.store.abortController == Some(i) || w.store.stream == Some(i))
  {
    hide WithoutPlaceholder;
  }

  // ---------- Events ----------

  /** An event with a workspace shows it first: a message lands at the end of what that workspace shows, with its blocks or its text. */
  lemma MessageLandsInItsWorkspace(w: World, ws: WorkspaceId, id: MessageId, content: string, blocks: seq<Block>)
    ensures var v := Step(w, DoEvent(UserMessage(id, content, blocks), Some(ws))).store;
            var shown := Activate(w.store, ws);
            && v.active == Some(ws)
            && v.messages == shown.messages + [Message(id, User, if blocks == [] then [TextBlock(content)] else blocks)]
            && StoredMessages(v, KeyOf(ws)) == v.messages
            && v == shown.(messages := v.messages, stored := v.stored)
            && forall key | key != KeyOf(ws) :: StoredMessages(v, key) == StoredMessages(shown, key)
  {
    ActivateReads(w.store, ws);
    hide Activate;
  }

  /** A block that belongs to no answer goes to the last assistant message, if there is one; no other message changes. */
  lemma LooseBlockGoesToTheLastAnswer(s: Store, block: Block, front: seq<Message>, answer: Message, later: seq<Message>)
    requires s.currentAssistant.None? && s.messages == front + [answer] + later
    requires answer.role == Assistant && forall m | m in later :: m.role != Assistant
    ensures Reduce(s, AssistantBlock(block)).messages
         == front + [answer.(blocks := Appended(answer.blocks, block))] + later
  {
    var k := |front|;
    assert s.messages[k] == answer;
    assert forall j | k < j < |s.messages| :: s.messages[j] == later[j - k - 1];
    assert LastAssistant(s.messages) == Some(k);
  }

  /** Without an assistant message, and for an answer that is not listed, a block is dropped. */
  lemma HomelessBlockIsDropped(s: Store, block: Block)
    requires match s.currentAssistant
             case Some(id) => forall m | m in s.messages :: m.id != id
             case None => forall m | m in s.messages :: m.role != Assistant
    ensures Reduce(s, AssistantBlock(block)) == s && Reduce(s, FinalizeBlock(block)) == s
  {
  }

  // ---------- How a send fails ----------

  /** What is shown of an error: its message without blanks at its ends, or a sentence of its own if nothing is left. */
  lemma CaptionIsTheTrimmedMessage(error: Thrown)
    ensures ErrorCaption(error) == if (exists c | c in error.message :: IsVisible(c)) then Trim(error.message) else "消息未能发送，请稍后重试"
    ensures THREAD_INVALID == "对话线程无效，请稍后重试" && SEND_ERROR_RUN == "chat-send-error"
  {
    TrimmedIsEmptyIfBlank(error.message);
    hide Trim;
  }

  /** An aborted send says nothing: whatever it was waiting for, no list changes and it returns as cancelled. */
  lemma AbortIsSilent(w: World, a: Action)
    requires Inv(w) && Enabled(w, a) && OfASend(a) && Holds(w, a.op)
    requires EarlyError(w, a).Some? && EarlyError(w, a).value.isAbort
    ensures var v := Step(w, a);
            && v.store.messages == w.store.messages && v.store.stored == w.store.stored
            && v.results == w.results[a.op := Cancelled] && Freed(v.store) && a.op !in v.ops
  {
    assert OpOk(w, a.op);
    hide Inv;
    EarlyErrorIsCaught(w, a);
    hide Step;
  }

  lemma ReportedInTheAnswer(s: Store, error: Thrown, spare: MessageId, k: nat)
    requires s.currentAssistant.Some? && Answering(s, k, s.currentAssistant.value)
    ensures Reported(s, error, spare).messages
         == Reblocked(s.messages, k, s.messages[k].blocks + [StatusLine(ErrorCaption(error), SEND_ERROR_RUN, "error", "")])
  {
    hide ErrorCaption;
    assert FindIndex(s.messages, s.currentAssistant.value) == Some(k);
  }

  lemma UnopenedIsCaught(u: World, i: OpId, body: ThreadBody, id: MessageId, fault: Thrown)
    requires MayAnswer(u, i, body, id) && IsCurrentSend(u.store, i, u.ops[i].ws)
    ensures var started := u.(store := AnswerStarted(u.store, u.ops[i], body, id));
            Step(u, SendBodyRead(i, body, id, Some(fault))) == CatchSend(started, i, u.ops[i].ws, fault, id)
            && (AnswerStarted(u.store, u.ops[i], body, id).requestId == u.store.requestId
                ==> IsCurrentSend(started.store, i, u.ops[i].ws))
  {
    hide CatchSend, MergeById, IsFreshId;
  }

  /** If the stream of a new answer cannot be opened, the answer holds just the error. */
  lemma UnopenedAnswerHoldsTheError(u: World, i: OpId, body: ThreadBody, id: MessageId, fault: Thrown)
    requires Inv(u) && MayAnswer(u, i, body, id) && !fault.isAbort
    ensures u.ops[i].SendOp?
    ensures var v := Step(u, SendBodyRead(i, body, id, Some(fault)));
            && v.store.messages == Prior(u.store, u.ops[i], body)
                                   + [Message(id, Assistant, [StatusLine(ErrorCaption(fault), SEND_ERROR_RUN, "error", "")])]
            && v.results == u.results[i := Failed(ErrorCaption(fault))] && Freed(v.store)
  {
    assert OpOk(u, i);
    hide Inv, ErrorCaption, Freed, Prior, AnswerStarted, IsFreshId;
    var o, prior := u.ops[i], Prior(u.store, u.ops[i], body);
    var started := AnswerStarted(u.store, o, body, id);
    StartedView(u.store, o, body, id);
    AnswerKeepsRequest(u.store, o, body, id);
    UnopenedIsCaught(u, i, body, id, fault);
    var line := StatusLine(ErrorCaption(fault), SEND_ERROR_RUN, "error", "");
    hide Step, CatchSend;
    CatchReports(u.(store := started), i, o.ws, fault, id);
    ReportedInTheAnswer(started, fault, id, |prior|);
    assert [] + [line] == [line];
    AnswerAtTheEnd(prior, prior, id, [line]);
  }

  // ---------- Refreshes ----------

  /** Once its load is answered a refresh is forgotten, and the next one starts a forced load of its own. */
  lemma SettledRefreshIsForgotten(w: World, ws: WorkspaceId, load: OpId)
    requires Shares(w, ws, load) && load !in w.ops
    ensures var v := Step(w, RefreshSettled(ws, load));
            var x := Step(v, DoRefresh(ws));
            && v == w.(refreshing := w.refreshing - {ws})
            && v.nextOp in x.ops && x.nextOp == v.nextOp + 1 && Shares(x, ws, v.nextOp)
            && x.ops[v.nextOp] == LoadOp(ws, true, Epoch(v.activityEpochs, ws), Epoch(v.historyEpochs, ws) + 1)
            && x.historyEpochs == v.historyEpochs[ws := Epoch(v.historyEpochs, ws) + 1] && x.store == v.store
  {
    hide ReadMessages;
  }

  lemma PendingRefreshIsJoined(v: World, ws: WorkspaceId)
    requires ws in v.refreshing
    ensures Step(v, DoRefresh(ws)) == v
  {
  }

  lemma StartedRefreshIsKept(v: World, ws: WorkspaceId)
    requires ws !in v.refreshing
    ensures Step(v, DoRefresh(ws)).refreshing == v.refreshing[ws := v.nextOp]
  {
    hide ReadMessages;
  }

  /** Over whole runs: from a refresh until its load is answered and settled, further ones join it; after that they do not. */
  lemma RefreshLastsUntilItSettles(w: World, ws: WorkspaceId, actions: seq<Action>)
    requires DoReset !in actions && RefreshSettled(ws, RefreshLoad(w, ws)) !in actions
    requires RefreshLoad(w, ws) !in Play(Refresh(w, ws), actions).ops
    ensures var load := RefreshLoad(w, ws);
            var v := Play(Refresh(w, ws), actions);
            && Step(v, DoRefresh(ws)) == v
            && var settled := Step(v, RefreshSettled(ws, load));
               && ws !in settled.refreshing && settled.nextOp in Step(settled, DoRefresh(ws)).ops
               && Step(settled, DoRefresh(ws)).refreshing == settled.refreshing[ws := settled.nextOp]
  {
    RefreshStays(w, ws);
    hide Step;
    PlayKeepsRefresh(Refresh(w, ws), actions, ws, RefreshLoad(w, ws));
    var v := Play(Refresh(w, ws), actions);
    PendingRefreshIsJoined(v, ws);
    SettledRefreshIsForgotten(v, ws, RefreshLoad(w, ws));
    StartedRefreshIsKept(Step(v, RefreshSettled(ws, RefreshLoad(w, ws))), ws);
  }
}
