/**
 The chat store as the object the client uses. `state` is the record that `set` replaces; the other
 fields are the module-level maps and the operations waiting at an await. Every method is one atomic
 segment and is tied to the step it takes on values.
 */
module ChatStore {
  import opened Wrappers
  import opened ChatProtocol
  import opened ChatInvariants

  class ChatStore {
    var state: Store
    var historyEpochs: map<WorkspaceId, nat>
    var activityEpochs: map<WorkspaceId, nat>
    var recovering: set<WorkspaceId>
    var refreshing: map<WorkspaceId, OpId>
    var ops: map<OpId, Op>
    var nextOp: OpId
    var channels: map<OpId, Channel>
    var aborted: set<OpId>
    var results: map<OpId, TurnResult>

    function Snapshot(): World
      reads this
    {
      World(state, historyEpochs, activityEpochs, recovering, refreshing, ops, nextOp, channels, aborted, results)
    }

    constructor ()
      ensures Snapshot() == INITIAL_WORLD
    {
      state := EMPTY_STORE;
      historyEpochs, activityEpochs, recovering, refreshing := map[], map[], {}, map[];
      ops, nextOp, channels, aborted, results := map[], 0, map[], {}, map[];
    }

    /** The index of the current assistant message, or of the last assistant message. */
    static method FindAssistantMessageIndex(messages: seq<Message>, current: Option<MessageId>) returns (index: int)
      ensures -1 <= index < |messages|
      ensures AssistantIndex(messages, current) == if index == -1 then None else Some(index)
    {
      if current.Some? {
        var found := FindIndex(messages, current.value);
        return if found.Some? then found.value else -1;
      }
      var i := |messages| - 1;
      while i >= 0
        invariant -1 <= i < |messages|
        invariant LastAssistant(messages) == LastAssistant(messages[..i + 1])
      {
        if messages[i].role == Assistant {
          return i;
        }
        assert messages[..i + 1][..i] == messages[..i];
        i := i - 1;
      }
      return -1;
    }

    method ShowMessages(messages: seq<Message>)
      modifies this`state
      ensures state == SyncActive(old(state), messages)
    {
      var key := if state.active.Some? then KeyOf(state.active.value) else DefaultKey;
      state := state.(messages := messages, stored := state.stored[key := messages]);
    }

    /** Signals the transports that the state record holds. */
    method AbortTransports()
      modifies this`aborted
      ensures aborted == old(aborted) + Handles(state)
    {
      if state.abortController.Some? {
        aborted := aborted + {state.abortController.value};
      }
      if state.stream.Some? {
        aborted := aborted + {state.stream.value};
      }
    }

    /** The `set` of `setActiveWorkspace`. */
    method Show(ws: WorkspaceId)
      modifies this`state
      ensures state == Activate(old(state), ws)
    {
      var switching := state.active.Some? && state.active.value != ws;
      var outgoing := state.messages;
      if switching && state.currentAssistant.Some? {
        outgoing := WithoutPlaceholder(state.messages, state.currentAssistant.value);
      }
      var stored := state.stored;
      if state.active.Some? || |state.messages| > 0 {
        stored := stored[Key(state.active) := outgoing];
      }
      var next := [];
      if state.active.None? && |state.messages| > 0 && KeyOf(ws) !in stored {
        next := state.messages;
        stored := stored[KeyOf(ws) := next];
      } else if KeyOf(ws) in stored {
        next := stored[KeyOf(ws)];
      }
      state := state.(active := Some(ws), messages := next, stored := stored);
      if switching {
        state := state.(isSending := false, currentAssistant := None, requestId := None, requestWorkspace := None,
                        abortController := None, stream := None);
      }
    }

    method SetActiveWorkspace(ws: WorkspaceId)
      modifies this`state, this`aborted
      ensures Snapshot() == ChatProtocol.SetActiveWorkspace(old(Snapshot()), ws)
    {
      if state.active.Some? && state.active.value != ws {
        AbortTransports();
      }
      Show(ws);
    }

    /** `handleEvent` without a workspace. */
    method Dispatch(e: Event)
      modifies this`state
      ensures state == Reduce(old(state), e)
    {
      match e
      case UserMessage(id, content, given) =>
        var blocks := given;
        if blocks == [] {
          blocks := [TextBlock(content)];
        }
        ShowMessages(state.messages + [Message(id, User, blocks)]);
      case AssistantStart(id) =>
        ShowMessages(state.messages + [Message(id, Assistant, [])]);
        state := state.(currentAssistant := Some(id));
      case AssistantBlock(block) =>
        var index := FindAssistantMessageIndex(state.messages, state.currentAssistant);
        if index != -1 {
          var blocks := state.messages[index].blocks;
          if block.TextBlock? && |blocks| > 0 && blocks[|blocks| - 1].TextBlock? {
            blocks := blocks[|blocks| - 1 := TextBlock(blocks[|blocks| - 1].content + block.content)];
          } else {
            blocks := blocks + [block];
          }
          ShowMessages(Reblocked(state.messages, index, blocks));
        }
      case FinalizeBlock(block) =>
        if state.currentAssistant.Some? {
          var id := state.currentAssistant.value;
          var index := FindAssistantMessageIndex(state.messages, state.currentAssistant);
          if index != -1 {
            if id in state.finalized {
              ShowMessages(Reblocked(state.messages, index, state.messages[index].blocks + [block]));
            } else {
              ShowMessages(Reblocked(state.messages, index, [block]));
              state := state.(finalized := state.finalized + {id});
            }
          }
        }
      case Completion =>
        state := state.(currentAssistant := None);
    }

    method HandleEvent(e: Event, ws: Option<WorkspaceId>)
      modifies this
      ensures Snapshot() == ChatProtocol.HandleEvent(old(Snapshot()), e, ws)
    {
      if ws.Some? {
        SetActiveWorkspace(ws.value);
      }
      Dispatch(e);
    }

    method Reset()
      modifies this
      ensures Snapshot() == ChatProtocol.Reset(old(Snapshot()))
    {
      AbortTransports();
      historyEpochs, activityEpochs, recovering, refreshing := map[], map[], {}, map[];
      state := EMPTY_STORE;
    }

    method StopSending()
      modifies this
      ensures Snapshot() == Stop(old(Snapshot()))
    {
      if !state.isSending || state.stream.Some? {
        return;
      }
      if state.abortController.Some? {
        aborted := aborted + {state.abortController.value};
      }
    }

    // ---------- History ----------

    method BumpActivity(ws: WorkspaceId)
      modifies this`activityEpochs
      ensures activityEpochs == Bump(old(activityEpochs), ws)
    {
      var next := 1;
      if ws in activityEpochs {
        next := activityEpochs[ws] + 1;
      }
      activityEpochs := activityEpochs[ws := next];
    }

    method LoadHistory(ws: WorkspaceId, force: bool)
      modifies this
      ensures Snapshot() == StartLoad(old(Snapshot()), ws, force)
    {
      if ws in state.threadIds && state.threadIds[ws] != "" && !force {
        return;
      }
      var hydrate := force || ReadMessages(state, ws) == [];
      var activityEpoch := Epoch(activityEpochs, ws);
      var requestEpoch := Epoch(historyEpochs, ws) + 1;
      historyEpochs := historyEpochs[ws := requestEpoch];
      ops := ops[nextOp := LoadOp(ws, hydrate, activityEpoch, requestEpoch)];
      nextOp := nextOp + 1;
    }

    method HistoryReplied(op: OpId, body: Option<ThreadBody>)
      requires op in ops && ops[op].LoadOp?
      modifies this
      ensures Snapshot() == FinishLoad(old(Snapshot()), op, body)
    {
      var load := ops[op];
      ops := ops - {op};
      if body.None? || body.value.threadId == "" {
        return;
      }
      if Epoch(historyEpochs, load.ws) != load.requestEpoch {
        return;
      }
      if load.hydrate && body.value.listing.Malformed? {
        return;
      }
      state := state.(threadIds := state.threadIds[load.ws := body.value.threadId]);
      if load.hydrate && Epoch(activityEpochs, load.ws) == load.activityEpoch && state.requestWorkspace != Some(load.ws) {
        var loaded := Loaded(body.value);
        state := state.(stored := state.stored[KeyOf(load.ws) := loaded]);
        if state.active == Some(load.ws) || state.active.None? {
          state := state.(active := Some(load.ws), messages := loaded, currentAssistant := None, finalized := {});
        }
      }
    }

    method RefreshHistory(ws: WorkspaceId) returns (load: OpId)
      modifies this
      ensures Snapshot() == Refresh(old(Snapshot()), ws) && load == RefreshLoad(old(Snapshot()), ws)
    {
      if ws in refreshing {
        return refreshing[ws];
      }
      load := nextOp;
      LoadHistory(ws, true);
      refreshing := refreshing[ws := load];
    }

    method RefreshSettled(ws: WorkspaceId, load: OpId)
      modifies this
      ensures Snapshot() == ClearRefresh(old(Snapshot()), ws, load)
    {
      if ws in refreshing && refreshing[ws] == load {
        refreshing := refreshing - {ws};
      }
    }

    // ---------- Sending ----------

    method SendMessage(ws: WorkspaceId, content: string, hasAttachments: bool, userMessage: MessageId)
      modifies this
      ensures Snapshot() == StartSend(old(Snapshot()), ws, content, hasAttachments, userMessage)
    {
      hide Trim, Reduce, Activate;
      if state.isSending || (Trim(content) == "" && !hasAttachments) {
        return;
      }
      SetActiveWorkspace(ws);
      var id := nextOp;
      nextOp := nextOp + 1;
      BumpActivity(ws);
      var hadMessages := |ReadMessages(state, ws)| > 0;
      state := state.(isSending := true, requestId := Some(SendRequest(id)), requestWorkspace := Some(ws),
                      abortController := Some(id));
      Dispatch(UserMessage(userMessage, content, []));
      ops := ops[id := SendOp(ws, hadMessages, userMessage, AwaitThread, None)];
    }

    /** The `finally` block of a send, and its return. */
    method ReturnFromSend(op: OpId, result: TurnResult)
      modifies this
      ensures Snapshot() == FinishSend(old(Snapshot()), op, result)
    {
      if state.requestId == Some(SendRequest(op)) {
        state := state.(isSending := false, requestId := None, requestWorkspace := None, abortController := None, stream := None);
      }
      ops := ops - {op};
      results := results[op := result];
    }

    /** The `catch` block of a send. */
    method SendFailed(op: OpId, ws: WorkspaceId, error: Thrown, placeholder: MessageId)
      modifies this
      ensures Snapshot() == CatchSend(old(Snapshot()), op, ws, error, placeholder)
    {
      if !IsCurrentSend(state, op, ws) || error.isAbort {
        ReturnFromSend(op, Cancelled);
        return;
      }
      if state.currentAssistant.None? {
        Dispatch(AssistantStart(placeholder));
      }
      var caption := Trim(error.message);
      if caption == "" {
        caption := SEND_FAILED;
      }
      Dispatch(AssistantBlock(StatusLine(caption, SEND_ERROR_RUN, "error", "")));
      Dispatch(Completion);
      ReturnFromSend(op, Failed(caption));
    }

    method ThreadReplied(op: OpId, reply: Reply, placeholder: MessageId)
      requires InSend(Snapshot(), op, AwaitThread)
      modifies this
      ensures Snapshot() == SendThreadReply(old(Snapshot()), op, reply, placeholder)
    {
      var ws := ops[op].ws;
      if reply.Rejected? {
        SendFailed(op, ws, reply.error, placeholder);
      } else if !IsCurrentSend(state, op, ws) {
        ReturnFromSend(op, Cancelled);
      } else if reply.NotOk? {
        ops := ops[op := ops[op].(phase := AwaitErrorText)];
      } else {
        ops := ops[op := ops[op].(phase := AwaitThreadBody)];
      }
    }

    method ThreadBodyRead(op: OpId, body: ThreadBody, assistant: MessageId, fault: Option<Thrown>)
      requires InSend(Snapshot(), op, AwaitThreadBody)
      modifies this
      ensures Snapshot() == SendThreadBody(old(Snapshot()), op, body, assistant, fault)
    {
      var o := ops[op];
      if !IsCurrentSend(state, op, o.ws) {
        ReturnFromSend(op, Cancelled);
        return;
      }
      if body.threadId == "" {
        SendFailed(op, o.ws, Thrown(false, THREAD_INVALID), assistant);
        return;
      }
      state := state.(threadIds := state.threadIds[o.ws := body.threadId]);
      if !o.hadMessages {
        if body.listing.Malformed? {
          SendFailed(op, o.ws, body.listing.error, assistant);
          return;
        }
        if body.listing.Listed? {
          ShowMessages(MergeById(state.messages, body.listing.messages));
        }
      }
      Dispatch(AssistantStart(assistant));
      if fault.Some? {
        SendFailed(op, o.ws, fault.value, assistant);
      } else {
        channels := channels[op := SendChannel(o.ws)];
        state := state.(stream := Some(op), abortController := None);
        ops := ops[op := o.(phase := AwaitOutcome(assistant))];
      }
    }

    method StreamEnded(op: OpId, outcome: StreamOutcome, placeholder: MessageId)
      requires op in ops && ops[op].SendOp? && ops[op].phase.AwaitOutcome?
      modifies this
      ensures Snapshot() == SendOutcome(old(Snapshot()), op, outcome, placeholder)
    {
      var o := ops[op];
      if !IsCurrentSend(state, op, o.ws) {
        ReturnFromSend(op, Cancelled);
        return;
      }
      match outcome
      case StreamCancelled =>
        ShowMessages(Without(state.messages, o.phase.assistant));
        state := state.(currentAssistant := None);
        ReturnFromSend(op, Cancelled);
      case StreamFailed(error) =>
        SendFailed(op, o.ws, Thrown(false, error), placeholder);
      case StreamCompleted =>
        Dispatch(Completion);
        ReturnFromSend(op, if o.launched.Some? then Launched(o.launched.value) else Completed);
    }

    /** `onContent` and `onBlock` of an opened stream. */
    method OnItem(op: OpId, item: StreamItem)
      requires op in channels
      modifies this
      ensures Snapshot() == Deliver(old(Snapshot()), op, item)
    {
      if !IsCurrentChannel(state, op, channels[op]) {
        return;
      }
      match item {
        case Delta(content) => Dispatch(AssistantBlock(TextBlock(content)));
        case Final(block) => Dispatch(FinalizeBlock(block));
      }
      if op in ops {
        ops := ops[op := NoteLaunch(ops[op], item)];
      }
    }

    // ---------- Recovering a run ----------

    method RecoverActiveRun(ws: WorkspaceId, provided: Option<string>)
      modifies this
      ensures Snapshot() == StartRecovery(old(Snapshot()), ws, provided)
    {
      hide Trim, Activate;
      if ws in recovering {
        return;
      }
      recovering := recovering + {ws};
      var given := "";
      if provided.Some? {
        given := provided.value;
      } else if ws in state.threadIds {
        given := state.threadIds[ws];
      }
      var threadId := Trim(given);
      if state.active != Some(ws) || state.isSending || threadId == "" {
        recovering := recovering - {ws};
        return;
      }
      ops := ops[nextOp := RecoveryOp(ws, threadId, AwaitRuns, None)];
      nextOp := nextOp + 1;
    }

    /** The `finally` block of a recovery, and its return. */
    method ReturnFromRecovery(op: OpId, ws: WorkspaceId, result: TurnResult)
      modifies this
      ensures Snapshot() == FinishRecovery(old(Snapshot()), op, ws, result)
    {
      recovering := recovering - {ws};
      ops := ops - {op};
      results := results[op := result];
    }

    method WaitForHistory(op: OpId, o: Op, result: TurnResult)
      requires o.RecoveryOp?
      modifies this
      ensures Snapshot() == AwaitHistory(old(Snapshot()), op, o, result)
    {
      var load := RefreshHistory(o.ws);
      ops := ops[op := o.(recovery := AwaitRefresh(load, result))];
    }

    /** The `catch` block of a recovery. */
    method RecoveryFailed(op: OpId, o: Op, run: Option<RunId>)
      requires o.RecoveryOp?
      modifies this
      ensures Snapshot() == CatchRecovery(old(Snapshot()), op, o, run)
    {
      if run.Some? && state.requestId == Some(RecoveryRequest(run.value)) {
        ShowMessages(Without(state.messages, RecoveryMessageId(run.value)));
        state := state.(isSending := false, requestId := None, requestWorkspace := None, stream := None, currentAssistant := None);
      }
      WaitForHistory(op, o, Nothing);
    }

    method RunsReplied(op: OpId, reply: Reply)
      requires InRecovery(Snapshot(), op, AwaitRuns)
      modifies this
      ensures Snapshot() == RecoveryRunsReply(old(Snapshot()), op, reply)
    {
      match reply
      case Rejected(_) => RecoveryFailed(op, ops[op], None);
      case NotOk => ReturnFromRecovery(op, ops[op].ws, Nothing);
      case Ok => ops := ops[op := ops[op].(recovery := AwaitRunList)];
    }

    method RunsRead(op: OpId, runs: seq<Run>, joins: bool)
      requires InRecovery(Snapshot(), op, AwaitRunList)
      modifies this
      ensures Snapshot() == RecoveryRunList(old(Snapshot()), op, runs, joins)
    {
      hide Reduce;
      var o := ops[op];
      var latest := LatestActive(runs);
      if latest.None? || state.active != Some(o.ws) || state.isSending {
        ReturnFromRecovery(op, o.ws, Nothing);
        return;
      }
      var run := latest.value.id;
      BumpActivity(o.ws);
      state := state.(isSending := true, requestId := Some(RecoveryRequest(run)), requestWorkspace := Some(o.ws),
                      currentAssistant := None);
      Dispatch(AssistantStart(RecoveryMessageId(run)));
      if !joins {
        RecoveryFailed(op, o, Some(run));
      } else {
        channels := channels[op := RecoveryChannel(o.ws, run)];
        state := state.(stream := Some(op));
        ops := ops[op := o.(recovery := AwaitRun(run))];
      }
    }

    method RecoveredStreamEnded(op: OpId, outcome: Option<StreamOutcome>)
      requires op in ops && ops[op].RecoveryOp? && ops[op].recovery.AwaitRun?
      modifies this
      ensures Snapshot() == RecoveryOutcome(old(Snapshot()), op, outcome)
    {
      var o := ops[op];
      var run := o.recovery.run;
      if outcome.None? {
        RecoveryFailed(op, o, Some(run));
      } else if !IsCurrentRecovery(state, o.ws, run) {
        ReturnFromRecovery(op, o.ws, Nothing);
      } else {
        state := state.(isSending := false, requestId := None, requestWorkspace := None, stream := None, currentAssistant := None);
        var result := Cancelled;
        match outcome.value {
          case StreamCompleted => result := if o.launched.Some? then Launched(o.launched.value) else Completed;
          case StreamFailed(error) => result := Failed(error);
          case StreamCancelled =>
        }
        WaitForHistory(op, o, result);
      }
    }

    // ---------- Interleavings ----------

    /** Runs the next segment, if it is one that can run. */
    method Perform(a: Action)
      modifies this
      ensures Snapshot() == Step(old(Snapshot()), a)
    {
      hide Activate, Reduce, StartSend, StartLoad, FinishLoad, SendThreadReply, SendThreadBody, SendOutcome, CatchSend,
        Deliver, StartRecovery, RecoveryRunsReply, RecoveryRunList, RecoveryOutcome, CatchRecovery, FinishRecovery;
      if Enabled(Snapshot(), a) {
        match a
        case DoActivate(ws) => SetActiveWorkspace(ws);
        case DoEvent(event, target) => HandleEvent(event, target);
        case DoReset => Reset();
        case DoStop => StopSending();
        case DoLoad(ws, force) => LoadHistory(ws, force);
        case LoadReplied(op, thread) => HistoryReplied(op, thread);
        case DoRefresh(ws) => var _ := RefreshHistory(ws);
        case RefreshSettled(ws, op) => RefreshSettled(ws, op);
        case DoSend(ws, content, has, userMessage) => SendMessage(ws, content, has, userMessage);
        case SendThreadReplied(op, reply, spare) => ThreadReplied(op, reply, spare);
        case SendErrorRead(op, error, spare) => SendFailed(op, ops[op].ws, error, spare);
        case SendBodyRead(op, body, spare, fault) => ThreadBodyRead(op, body, spare, fault);
        case SendBodyRejected(op, error, spare) => SendFailed(op, ops[op].ws, error, spare);
        case SendStreamEnded(op, outcome, spare) => StreamEnded(op, outcome, spare);
        case Callback(op, item) => OnItem(op, item);
        case DoRecover(ws, provided) => RecoverActiveRun(ws, provided);
        case RecoveryRunsReplied(op, reply) => RunsReplied(op, reply);
        case RecoveryRunsRead(op, runs, joins) => RunsRead(op, runs, joins);
        case RecoveryRunsRejected(op) => RecoveryFailed(op, ops[op], None);
        case RecoveryStreamEnded(op, ended) => RecoveredStreamEnded(op, ended);
        case RecoveryRefreshed(op) => ReturnFromRecovery(op, ops[op].ws, ops[op].recovery.result);
      }
    }

    /** Any interleaving: the object follows the run on values, and stays consistent throughout. */
    method PerformAll(actions: seq<Action>)
      requires Inv(Snapshot())
      modifies this
      ensures Snapshot() == Play(old(Snapshot()), actions) && Inv(Snapshot())
    {
      for n := 0 to |actions|
        invariant Inv(Snapshot())
        invariant Play(Snapshot(), actions[n..]) == Play(old(Snapshot()), actions)
      {
        StepKeepsInv(Snapshot(), actions[n]);
        Perform(actions[n]);
        assert actions[n..][1..] == actions[n + 1..];
      }
    }
  }
}
