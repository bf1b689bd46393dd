/**
 The chat store as values: what one `set` does to the state record, what one atomic segment
 between two awaits does to the whole client (state record, module-level maps, in-flight
 operations), and the runs obtained by interleaving such segments in any order.
 */
module ChatProtocol {
  import opened Wrappers
  import Text

  const THREAD_INVALID := "对话线程无效，请稍后重试"
  const SEND_FAILED := "消息未能发送，请稍后重试"
  const SEND_ERROR_RUN := "chat-send-error"

  /** Workspace ids are trimmed, non-empty and never the reserved key, so each one is its own key. */
  datatype WorkspaceId = WorkspaceId(name: string)
  datatype WorkspaceKey = DefaultKey | KeyOf(ws: WorkspaceId)
  /** Message ids are non-empty. */
  datatype MessageId = MessageId(text: string)
  /** An operation is named by the order in which it was started. */
  type OpId = nat

  /** Each run belongs to one workspace. */
  datatype RunId = RunId(owner: WorkspaceId, name: string)

  /** A send's request id is a fresh UUID; a recovery's is derived from the run it rejoins. */
  datatype RequestId = SendRequest(op: OpId) | RecoveryRequest(run: RunId)

  datatype Role = User | Assistant | System
  datatype Block =
    | TextBlock(content: string)
    | StatusLine(caption: string, runId: string, tone: string, action: string)
    | OtherBlock(kind: string, payload: string)
  datatype Message = Message(id: MessageId, role: Role, blocks: seq<Block>)

  datatype Event =
    | UserMessage(id: MessageId, content: string, blocks: seq<Block>)
    | AssistantStart(id: MessageId)
    | AssistantBlock(block: Block)
    | FinalizeBlock(block: Block)
    | Completion

  /** The record that `set` replaces. Handles name the operation whose transport they control. */
  datatype Store = Store(
    active: Option<WorkspaceId>,
    stored: map<WorkspaceKey, seq<Message>>,
    threadIds: map<WorkspaceId, string>,
    messages: seq<Message>,
    currentAssistant: Option<MessageId>,
    isSending: bool,
    requestId: Option<RequestId>,
    requestWorkspace: Option<WorkspaceId>,
    abortController: Option<OpId>,
    stream: Option<OpId>,
    finalized: set<MessageId>)

  const EMPTY_STORE := Store(None, map[], map[], [], None, false, None, None, None, None, {})

  // ---------- The state record ----------

  function Key(active: Option<WorkspaceId>): WorkspaceKey {
    if active.Some? then KeyOf(active.value) else DefaultKey
  }

  /** The list stored for a key; an absent entry counts as the empty list. */
  function StoredMessages(s: Store, key: WorkspaceKey): seq<Message> {
    if key in s.stored then s.stored[key] else []
  }

  function ReadMessages(s: Store, ws: WorkspaceId): seq<Message> {
    if KeyOf(ws) in s.stored then s.stored[KeyOf(ws)]
    else if s.active.None? || s.active == Some(ws) then s.messages
    else []
  }

  function SyncActive(s: Store, messages: seq<Message>): Store {
    s.(messages := messages, stored := s.stored[Key(s.active) := messages])
  }

  function Without(messages: seq<Message>, id: MessageId): seq<Message> {
    if messages == [] then []
    else (if messages[0].id == id then [] else [messages[0]]) + Without(messages[1..], id)
  }

  /** Drops the placeholder of an assistant message that has received no block yet. */
  function WithoutPlaceholder(messages: seq<Message>, id: MessageId): seq<Message> {
    if messages == [] then []
    else (if messages[0].id == id && messages[0].blocks == [] then [] else [messages[0]])
         + WithoutPlaceholder(messages[1..], id)
  }

  predicate HasId(messages: seq<Message>, id: MessageId) {
    exists m | m in messages :: m.id == id
  }

  function NotSeen(existing: seq<Message>, incoming: seq<Message>): seq<Message> {
    if incoming == [] then []
    else (if HasId(existing, incoming[0].id) then [] else [incoming[0]]) + NotSeen(existing, incoming[1..])
  }

  function MergeById(existing: seq<Message>, incoming: seq<Message>): seq<Message> {
    NotSeen(existing, incoming) + existing
  }

  function FindIndex(messages: seq<Message>, id: MessageId): (r: Option<nat>)
    ensures r.Some? ==> r.value < |messages| && messages[r.value].id == id
    ensures r.Some? ==> forall j | 0 <= j < r.value :: messages[j].id != id
    ensures r.None? ==> forall j | 0 <= j < |messages| :: messages[j].id != id
  {
    if messages == [] then None
    else if messages[0].id == id then Some(0)
    else match FindIndex(messages[1..], id)
      case None => None
      case Some(i) => assert messages[1..][i] == messages[i + 1]; Some(i + 1)
  }

  function LastAssistant(messages: seq<Message>): (r: Option<nat>)
    ensures r.Some? ==> r.value < |messages| && messages[r.value].role == Assistant
    ensures r.Some? ==> forall j | r.value < j < |messages| :: messages[j].role != Assistant
    ensures r.None? ==> forall j | 0 <= j < |messages| :: messages[j].role != Assistant
  {
    if messages == [] then None
    else if messages[|messages| - 1].role == Assistant then Some(|messages| - 1)
    else LastAssistant(messages[..|messages| - 1])
  }

  function AssistantIndex(messages: seq<Message>, current: Option<MessageId>): (r: Option<nat>)
    ensures r.Some? ==> r.value < |messages|
  {
    if current.Some? then FindIndex(messages, current.value) else LastAssistant(messages)
  }

  /** Consecutive text blocks are merged, any other block is appended. */
  function Appended(blocks: seq<Block>, block: Block): seq<Block> {
    if block.TextBlock? && blocks != [] && blocks[|blocks| - 1].TextBlock? then
      blocks[|blocks| - 1 := TextBlock(blocks[|blocks| - 1].content + block.content)]
    else
      blocks + [block]
  }

  function Reblocked(messages: seq<Message>, index: nat, blocks: seq<Block>): seq<Message>
    requires index < |messages|
  {
    messages[index := messages[index].(blocks := blocks)]
  }

  /** `handleEvent` without a workspace. */
  function Reduce(s: Store, e: Event): Store {
    match e
    case UserMessage(id, content, blocks) =>
      SyncActive(s, s.messages + [Message(id, User, if blocks != [] then blocks else [TextBlock(content)])])
    case AssistantStart(id) =>
      SyncActive(s, s.messages + [Message(id, Assistant, [])]).(currentAssistant := Some(id))
    case AssistantBlock(block) =>
      (match AssistantIndex(s.messages, s.currentAssistant)
       case None => s
       case Some(i) => SyncActive(s, Reblocked(s.messages, i, Appended(s.messages[i].blocks, block))))
    case FinalizeBlock(block) =>
      if s.currentAssistant.None? then s
      else
        var id := s.currentAssistant.value;
        (match FindIndex(s.messages, id)
         case None => s
         case Some(i) =>
           if id !in s.finalized then
             SyncActive(s, Reblocked(s.messages, i, [block])).(finalized := s.finalized + {id})
           else
             SyncActive(s, Reblocked(s.messages, i, s.messages[i].blocks + [block])))
    case Completion => s.(currentAssistant := None)
  }

  function ReduceAll(s: Store, events: seq<Event>): Store
    decreases |events|
  {
    if events == [] then s else ReduceAll(Reduce(s, events[0]), events[1..])
  }

  predicate Switches(s: Store, ws: WorkspaceId) {
    s.active.Some? && s.active.value != ws
  }

  function ClearTurn(s: Store): Store {
    s.(isSending := false, requestId := None, requestWorkspace := None, stream := None)
  }

  /** The `set` of `setActiveWorkspace`. */
  function Activate(s: Store, ws: WorkspaceId): Store {
    var switching := Switches(s, ws);
    var outgoing := if switching && s.currentAssistant.Some?
                    then WithoutPlaceholder(s.messages, s.currentAssistant.value) else s.messages;
    var saved := if s.active.Some? || |s.messages| > 0 then s.stored[Key(s.active) := outgoing] else s.stored;
    var promote := s.active.None? && |s.messages| > 0 && KeyOf(ws) !in saved;
    var next := if promote then s.messages else if KeyOf(ws) in saved then saved[KeyOf(ws)] else [];
    var shown := s.(active := Some(ws), messages := next, stored := if promote then saved[KeyOf(ws) := next] else saved);
    if switching then ClearTurn(shown).(currentAssistant := None, abortController := None) else shown
  }

  // ---------- The whole client ----------

  datatype TurnResult = Completed | Launched(missionId: string) | Failed(error: string) | Cancelled | Nothing

  datatype SendPhase = AwaitThread | AwaitErrorText | AwaitThreadBody | AwaitOutcome(assistant: MessageId)
  datatype RecoveryPhase =
    | AwaitRuns
    | AwaitRunList
    | AwaitRun(run: RunId)
    | AwaitRefresh(load: OpId, result: TurnResult)

  datatype Op =
    | SendOp(ws: WorkspaceId, hadMessages: bool, userMessage: MessageId, phase: SendPhase, launched: Option<string>)
    | RecoveryOp(ws: WorkspaceId, threadId: string, recovery: RecoveryPhase, launched: Option<string>)
    | LoadOp(ws: WorkspaceId, hydrate: bool, activityEpoch: nat, requestEpoch: nat)

  /** An opened stream keeps its callbacks for as long as the transport cares to call them. */
  datatype Channel = SendChannel(ws: WorkspaceId) | RecoveryChannel(ws: WorkspaceId, run: RunId)

  datatype World = World(
    store: Store,
    historyEpochs: map<WorkspaceId, nat>,
    activityEpochs: map<WorkspaceId, nat>,
    recovering: set<WorkspaceId>,
    refreshing: map<WorkspaceId, OpId>,
    ops: map<OpId, Op>,
    nextOp: OpId,
    channels: map<OpId, Channel>,
    aborted: set<OpId>,
    results: map<OpId, TurnResult>)

  const INITIAL_WORLD := World(EMPTY_STORE, map[], map[], {}, map[], map[], 0, map[], {}, map[])

  function Epoch(epochs: map<WorkspaceId, nat>, key: WorkspaceId): nat {
    if key in epochs then epochs[key] else 0
  }

  function Bump(epochs: map<WorkspaceId, nat>, key: WorkspaceId): map<WorkspaceId, nat> {
    epochs[key := Epoch(epochs, key) + 1]
  }

  function Handle(h: Option<OpId>): set<OpId> {
    if h.Some? then {h.value} else {}
  }

  /** The operations whose transports the state record can abort. */
  function Handles(s: Store): set<OpId> {
    Handle(s.abortController) + Handle(s.stream)
  }

  function SetActiveWorkspace(w: World, ws: WorkspaceId): World {
    w.(store := Activate(w.store, ws),
       aborted := if Switches(w.store, ws) then w.aborted + Handles(w.store) else w.aborted)
  }

  function HandleEvent(w: World, e: Event, ws: Option<WorkspaceId>): World {
    var shown := if ws.Some? then SetActiveWorkspace(w, ws.value) else w;
    shown.(store := Reduce(shown.store, e))
  }

  function Reset(w: World): World {
    w.(store := EMPTY_STORE, historyEpochs := map[], activityEpochs := map[], recovering := {}, refreshing := map[],
       aborted := w.aborted + Handles(w.store))
  }

  /** `stopSending`: a stream is asked to stop over the network, a request still without one is aborted. */
  function Stop(w: World): World {
    if w.store.isSending && w.store.stream.None? then w.(aborted := w.aborted + Handle(w.store.abortController)) else w
  }

  // ---------- History loads ----------

  /** A thrown error: whether it is an abort, and its message. */
  datatype Thrown = Thrown(isAbort: bool, message: string)

  /** The messages of a thread: no array, an array that can be read, or one whose reading throws. */
  datatype Listing = NoList | Listed(messages: seq<Message>) | Malformed(error: Thrown)

  /** What the server returns for a thread. */
  datatype ThreadBody = ThreadBody(threadId: string, listing: Listing)

  function Loaded(body: ThreadBody): seq<Message> {
    if body.listing.Listed? then body.listing.messages else []
  }

  predicate IsCached(w: World, ws: WorkspaceId, force: bool) {
    !force && ws in w.store.threadIds && w.store.threadIds[ws] != ""
  }

  function StartLoad(w: World, ws: WorkspaceId, force: bool): World {
    if IsCached(w, ws, force) then w
    else
      var epochs := Bump(w.historyEpochs, ws);
      w.(historyEpochs := epochs,
         ops := w.ops[w.nextOp := LoadOp(ws, force || ReadMessages(w.store, ws) == [],
                                         Epoch(w.activityEpochs, ws), epochs[ws])],
         nextOp := w.nextOp + 1)
  }

  predicate CanHydrate(w: World, load: Op)
    requires load.LoadOp?
  {
    load.hydrate && Epoch(w.activityEpochs, load.ws) == load.activityEpoch
    && w.store.requestWorkspace != Some(load.ws)
  }

  /** The `set` of `loadHistory`. */
  function Hydrate(s: Store, ws: WorkspaceId, loaded: seq<Message>): Store {
    var kept := s.(stored := s.stored[KeyOf(ws) := loaded]);
    if s.active == Some(ws) || s.active.None? then
      kept.(active := Some(ws), messages := loaded, currentAssistant := None, finalized := {})
    else kept
  }

  function ThreadNamed(s: Store, ws: WorkspaceId, body: ThreadBody): Store {
    s.(threadIds := s.threadIds[ws := body.threadId])
  }

  /** The response of a load; None is a failed request. Its messages are read only if it may hydrate. */
  function FinishLoad(w: World, op: OpId, body: Option<ThreadBody>): World
    requires op in w.ops && w.ops[op].LoadOp?
  {
    var load := w.ops[op];
    var done := w.(ops := w.ops - {op});
    if body.None? || body.value.threadId == "" || Epoch(w.historyEpochs, load.ws) != load.requestEpoch then done
    else if load.hydrate && body.value.listing.Malformed? then done
    else
      var named := ThreadNamed(w.store, load.ws, body.value);
      done.(store := if CanHydrate(w, load) then Hydrate(named, load.ws, Loaded(body.value)) else named)
  }

  /** The load a refresh waits for: the one in progress, or the one it starts. */
  function RefreshLoad(w: World, ws: WorkspaceId): OpId {
    if ws in w.refreshing then w.refreshing[ws] else w.nextOp
  }

  function Refresh(w: World, ws: WorkspaceId): World {
    if ws in w.refreshing then w
    else StartLoad(w, ws, true).(refreshing := w.refreshing[ws := w.nextOp])
  }

  function ClearRefresh(w: World, ws: WorkspaceId, load: OpId): World {
    if ws in w.refreshing && w.refreshing[ws] == load then w.(refreshing := w.refreshing - {ws}) else w
  }

  // ---------- Sending ----------

  /** Characters removed by the trimming of the browser. */
  predicate IsBlank(c: char) {
    var n := c as int;
    0x09 <= n <= 0x0D || n == 0x20 || n == 0xA0 || n == 0x1680 || 0x2000 <= n <= 0x200A
    || n == 0x2028 || n == 0x2029 || n == 0x202F || n == 0x205F || n == 0x3000 || n == 0xFEFF
  }

  function Trim(s: string): string {
    Text.Strip(s, IsBlank)
  }

  datatype Reply = Rejected(error: Thrown) | NotOk | Ok
  datatype StreamOutcome = StreamCompleted | StreamFailed(error: string) | StreamCancelled
  datatype StreamItem = Delta(content: string) | Final(block: Block)

  predicate IsCurrentSend(s: Store, op: OpId, ws: WorkspaceId) {
    s.requestId == Some(SendRequest(op)) && s.requestWorkspace == Some(ws) && s.active == Some(ws)
  }

  predicate AcceptsSend(w: World, content: string, hasAttachments: bool) {
    !w.store.isSending && (Trim(content) != "" || hasAttachments)
  }

  function StartSend(w: World, ws: WorkspaceId, content: string, hasAttachments: bool, userMessage: MessageId): World {
    if !AcceptsSend(w, content, hasAttachments) then w
    else
      var shown := SetActiveWorkspace(w, ws);
      var id := w.nextOp;
      var begun := shown.store.(isSending := true, requestId := Some(SendRequest(id)),
                                requestWorkspace := Some(ws), abortController := Some(id));
      shown.(store := Reduce(begun, UserMessage(userMessage, content, [])),
             activityEpochs := Bump(w.activityEpochs, ws),
             ops := w.ops[id := SendOp(ws, ReadMessages(shown.store, ws) != [], userMessage, AwaitThread, None)],
             nextOp := id + 1)
  }

  /** Returning from a send: the `finally` block, then the result. */
  function FinishSend(w: World, op: OpId, result: TurnResult): World {
    w.(store := if w.store.requestId == Some(SendRequest(op))
                then ClearTurn(w.store).(abortController := None) else w.store,
       ops := w.ops - {op},
       results := w.results[op := result])
  }

  function ErrorCaption(error: Thrown): string {
    if Trim(error.message) != "" then Trim(error.message) else SEND_FAILED
  }

  /** The `catch` block of a send. */
  function CatchSend(w: World, op: OpId, ws: WorkspaceId, error: Thrown, placeholder: MessageId): World {
    if !IsCurrentSend(w.store, op, ws) || error.isAbort then FinishSend(w, op, Cancelled)
    else
      var caption := ErrorCaption(error);
      var started := if w.store.currentAssistant.None? then Reduce(w.store, AssistantStart(placeholder)) else w.store;
      var reported := Reduce(started, AssistantBlock(StatusLine(caption, SEND_ERROR_RUN, "error", "")));
      FinishSend(w.(store := Reduce(reported, Completion)), op, Failed(caption))
  }

  function SetOp(w: World, op: OpId, o: Op): World {
    w.(ops := w.ops[op := o])
  }

  function SendThreadReply(w: World, op: OpId, reply: Reply, placeholder: MessageId): World
    requires op in w.ops && w.ops[op].SendOp?
  {
    var o := w.ops[op];
    if reply.Rejected? then CatchSend(w, op, o.ws, reply.error, placeholder)
    else if !IsCurrentSend(w.store, op, o.ws) then FinishSend(w, op, Cancelled)
    else SetOp(w, op, o.(phase := if reply.NotOk? then AwaitErrorText else AwaitThreadBody))
  }

  /** The thread is recorded, its messages are merged into a list that was empty, and the answer starts. */
  function AnswerStarted(s: Store, o: Op, body: ThreadBody, assistant: MessageId): Store
    requires o.SendOp?
  {
    var named := ThreadNamed(s, o.ws, body);
    var merged := if !o.hadMessages && body.listing.Listed?
                  then SyncActive(named, MergeById(named.messages, body.listing.messages)) else named;
    Reduce(merged, AssistantStart(assistant))
  }

  /**
   The thread is resolved: record it, merge its messages, start the answer, open the stream; `fault` is what
   opening the stream throws. No await separates these steps, so the check that follows the opening cannot
   fail and has no branch here.
   */
  function SendThreadBody(w: World, op: OpId, body: ThreadBody, assistant: MessageId, fault: Option<Thrown>): World
    requires op in w.ops && w.ops[op].SendOp?
  {
    var o := w.ops[op];
    if !IsCurrentSend(w.store, op, o.ws) then FinishSend(w, op, Cancelled)
    else if body.threadId == "" then CatchSend(w, op, o.ws, Thrown(false, THREAD_INVALID), assistant)
    else if !o.hadMessages && body.listing.Malformed? then
      CatchSend(w.(store := ThreadNamed(w.store, o.ws, body)), op, o.ws, body.listing.error, assistant)
    else
      var started := w.(store := AnswerStarted(w.store, o, body, assistant));
      if fault.Some? then CatchSend(started, op, o.ws, fault.value, assistant)
      else SetOp(started.(store := started.store.(stream := Some(op), abortController := None),
                          channels := w.channels[op := SendChannel(o.ws)]),
                 op, o.(phase := AwaitOutcome(assistant)))
  }

  function SendOutcome(w: World, op: OpId, outcome: StreamOutcome, placeholder: MessageId): World
    requires op in w.ops && w.ops[op].SendOp? && w.ops[op].phase.AwaitOutcome?
  {
    var o := w.ops[op];
    if !IsCurrentSend(w.store, op, o.ws) then FinishSend(w, op, Cancelled)
    else match outcome
      case StreamCancelled =>
        FinishSend(w.(store := SyncActive(w.store, Without(w.store.messages, o.phase.assistant))
                               .(currentAssistant := None)), op, Cancelled)
      case StreamFailed(error) => CatchSend(w, op, o.ws, Thrown(false, error), placeholder)
      case StreamCompleted =>
        FinishSend(w.(store := Reduce(w.store, Completion)), op,
                   if o.launched.Some? then Launched(o.launched.value) else Completed)
  }

  // ---------- Stream callbacks ----------

  function LaunchedBy(block: Block): Option<string> {
    if block.StatusLine? && block.action == "start_mission" && Trim(block.runId) != ""
    then Some(Trim(block.runId)) else None
  }

  predicate IsCurrentRecovery(s: Store, ws: WorkspaceId, run: RunId) {
    s.active == Some(ws) && s.requestId == Some(RecoveryRequest(run))
  }

  predicate IsCurrentChannel(s: Store, op: OpId, c: Channel) {
    match c
    case SendChannel(ws) => IsCurrentSend(s, op, ws)
    case RecoveryChannel(ws, run) => IsCurrentRecovery(s, ws, run)
  }

  function ItemEvent(item: StreamItem): Event {
    match item
    case Delta(content) => AssistantBlock(TextBlock(content))
    case Final(block) => FinalizeBlock(block)
  }

  function NoteLaunch(o: Op, item: StreamItem): Op {
    if !o.LoadOp? && item.Final? && LaunchedBy(item.block).Some? then o.(launched := LaunchedBy(item.block)) else o
  }

  function Deliver(w: World, op: OpId, item: StreamItem): World
    requires op in w.channels
  {
    if !IsCurrentChannel(w.store, op, w.channels[op]) then w
    else w.(store := Reduce(w.store, ItemEvent(item)),
            ops := if op in w.ops then w.ops[op := NoteLaunch(w.ops[op], item)] else w.ops)
  }

  // ---------- Recovering a run ----------

  /** A listed run; `stamp` is the place of its last change in the order the list is sorted by. */
  datatype Run = Run(id: RunId, isActive: bool, stamp: int)

  /** The first active run with the latest stamp. */
  function LatestActive(runs: seq<Run>): (r: Option<Run>)
    ensures r.Some? ==> r.value in runs && r.value.isActive
    ensures forall x | x in runs && x.isActive :: r.Some? && x.stamp <= r.value.stamp
  {
    if runs == [] then None
    else
      var rest := LatestActive(runs[1..]);
      if runs[0].isActive && (rest.None? || runs[0].stamp >= rest.value.stamp) then Some(runs[0]) else rest
  }

  function RecoveryMessageId(run: RunId): MessageId {
    MessageId("recovery:" + run.name + ":assistant")
  }

  function ChosenThread(w: World, ws: WorkspaceId, provided: Option<string>): string {
    Trim(if provided.Some? then provided.value
         else if ws in w.store.threadIds then w.store.threadIds[ws] else "")
  }

  predicate MayRecover(w: World, ws: WorkspaceId) {
    w.store.active == Some(ws) && !w.store.isSending
  }

  function StartRecovery(w: World, ws: WorkspaceId, provided: Option<string>): World {
    if ws in w.recovering || !MayRecover(w, ws) || ChosenThread(w, ws, provided) == "" then w
    else w.(recovering := w.recovering + {ws},
            ops := w.ops[w.nextOp := RecoveryOp(ws, ChosenThread(w, ws, provided), AwaitRuns, None)],
            nextOp := w.nextOp + 1)
  }

  /** Returning from a recovery: its `finally` block, then the result. */
  function FinishRecovery(w: World, op: OpId, ws: WorkspaceId, result: TurnResult): World {
    w.(recovering := w.recovering - {ws}, ops := w.ops - {op}, results := w.results[op := result])
  }

  function AwaitHistory(w: World, op: OpId, o: Op, result: TurnResult): World
    requires o.RecoveryOp?
  {
    SetOp(Refresh(w, o.ws), op, o.(recovery := AwaitRefresh(RefreshLoad(w, o.ws), result)))
  }

  function EndRecoveryTurn(s: Store): Store {
    ClearTurn(s).(currentAssistant := None)
  }

  /** The `catch` block of a recovery, which has a request id once it knows its run. */
  function CatchRecovery(w: World, op: OpId, o: Op, run: Option<RunId>): World
    requires o.RecoveryOp?
  {
    var s := w.store;
    var caught := if run.Some? && s.requestId == Some(RecoveryRequest(run.value))
                  then EndRecoveryTurn(SyncActive(s, Without(s.messages, RecoveryMessageId(run.value)))) else s;
    AwaitHistory(w.(store := caught), op, o, Nothing)
  }

  function RecoveryRunsReply(w: World, op: OpId, reply: Reply): World
    requires op in w.ops && w.ops[op].RecoveryOp?
  {
    var o := w.ops[op];
    match reply
    case Rejected(_) => CatchRecovery(w, op, o, None)
    case NotOk => FinishRecovery(w, op, o.ws, Nothing)
    case Ok => SetOp(w, op, o.(recovery := AwaitRunList))
  }

  function BeginRecoveryTurn(s: Store, ws: WorkspaceId, run: RunId): Store {
    Reduce(s.(isSending := true, requestId := Some(RecoveryRequest(run)), requestWorkspace := Some(ws),
              currentAssistant := None), AssistantStart(RecoveryMessageId(run)))
  }

  /** The listed runs arrive; `joins` says whether opening the stream succeeds. Nothing is awaited before that. */
  function RecoveryRunList(w: World, op: OpId, runs: seq<Run>, joins: bool): World
    requires op in w.ops && w.ops[op].RecoveryOp?
  {
    var o := w.ops[op];
    var latest := LatestActive(runs);
    if latest.None? || !MayRecover(w, o.ws) then FinishRecovery(w, op, o.ws, Nothing)
    else
      var run := latest.value.id;
      var begun := w.(store := BeginRecoveryTurn(w.store, o.ws, run), activityEpochs := Bump(w.activityEpochs, o.ws));
      if !joins then CatchRecovery(begun, op, o, Some(run))
      else SetOp(begun.(store := begun.store.(stream := Some(op)),
                        channels := w.channels[op := RecoveryChannel(o.ws, run)]),
                 op, o.(recovery := AwaitRun(run)))
  }

  /** The rejoined stream ends; None is a rejected completion. */
  function RecoveryOutcome(w: World, op: OpId, outcome: Option<StreamOutcome>): World
    requires op in w.ops && w.ops[op].RecoveryOp? && w.ops[op].recovery.AwaitRun?
  {
    var o := w.ops[op];
    var run := o.recovery.run;
    if outcome.None? then CatchRecovery(w, op, o, Some(run))
    else if !IsCurrentRecovery(w.store, o.ws, run) then FinishRecovery(w, op, o.ws, Nothing)
    else
      var result := match outcome.value
                    case StreamCompleted => if o.launched.Some? then Launched(o.launched.value) else Completed
                    case StreamFailed(error) => Failed(error)
                    case StreamCancelled => Cancelled;
      AwaitHistory(w.(store := EndRecoveryTurn(w.store)), op, o, result)
  }

  // ---------- Interleavings ----------

  datatype Action =
    | DoActivate(ws: WorkspaceId)
    | DoEvent(event: Event, target: Option<WorkspaceId>)
    | DoReset
    | DoStop
    | DoLoad(ws: WorkspaceId, force: bool)
    | LoadReplied(op: OpId, thread: Option<ThreadBody>)
    | DoRefresh(ws: WorkspaceId)
    | RefreshSettled(ws: WorkspaceId, op: OpId)
    | DoSend(ws: WorkspaceId, content: string, hasAttachments: bool, userMessage: MessageId)
    | SendThreadReplied(op: OpId, reply: Reply, spare: MessageId)
    | SendErrorRead(op: OpId, error: Thrown, spare: MessageId)
    | SendBodyRead(op: OpId, body: ThreadBody, spare: MessageId, fault: Option<Thrown>)
    | SendBodyRejected(op: OpId, error: Thrown, spare: MessageId)
    | SendStreamEnded(op: OpId, outcome: StreamOutcome, spare: MessageId)
    | Callback(op: OpId, item: StreamItem)
    | DoRecover(ws: WorkspaceId, provided: Option<string>)
    | RecoveryRunsReplied(op: OpId, reply: Reply)
    | RecoveryRunsRead(op: OpId, runs: seq<Run>, joins: bool)
    | RecoveryRunsRejected(op: OpId)
    | RecoveryStreamEnded(op: OpId, ended: Option<StreamOutcome>)
    | RecoveryRefreshed(op: OpId)

  predicate InSend(w: World, op: OpId, phase: SendPhase) {
    op in w.ops && w.ops[op].SendOp? && w.ops[op].phase == phase
  }

  predicate InRecovery(w: World, op: OpId, phase: RecoveryPhase) {
    op in w.ops && w.ops[op].RecoveryOp? && w.ops[op].recovery == phase
  }

  /** The segments that can run next: an operation only continues from the await it stands at. */
  predicate Enabled(w: World, a: Action) {
    match a
    case LoadReplied(op, _) => op in w.ops && w.ops[op].LoadOp?
    case RefreshSettled(_, op) => op !in w.ops
    case SendThreadReplied(op, _, _) => InSend(w, op, AwaitThread)
    case SendErrorRead(op, _, _) => InSend(w, op, AwaitErrorText)
    case SendBodyRead(op, _, _, _) => InSend(w, op, AwaitThreadBody)
    case SendBodyRejected(op, _, _) => InSend(w, op, AwaitThreadBody)
    case SendStreamEnded(op, _, _) => op in w.ops && w.ops[op].SendOp? && w.ops[op].phase.AwaitOutcome?
    case Callback(op, _) => op in w.channels
    case RecoveryRunsReplied(op, _) => InRecovery(w, op, AwaitRuns)
    case RecoveryRunsRead(op, runs, _) =>
      InRecovery(w, op, AwaitRunList) && forall r | r in runs :: r.id.owner == w.ops[op].ws
    case RecoveryRunsRejected(op) => InRecovery(w, op, AwaitRunList)
    case RecoveryStreamEnded(op, _) => op in w.ops && w.ops[op].RecoveryOp? && w.ops[op].recovery.AwaitRun?
    case RecoveryRefreshed(op) =>
      op in w.ops && w.ops[op].RecoveryOp? && w.ops[op].recovery.AwaitRefresh? && w.ops[op].recovery.load !in w.ops
    case _ => true
  }

  function Apply(w: World, a: Action): World
    requires Enabled(w, a)
  {
    match a
    case DoActivate(ws) => SetActiveWorkspace(w, ws)
    case DoEvent(event, target) => HandleEvent(w, event, target)
    case DoReset => Reset(w)
    case DoStop => Stop(w)
    case DoLoad(ws, force) => StartLoad(w, ws, force)
    case LoadReplied(op, thread) => FinishLoad(w, op, thread)
    case DoRefresh(ws) => Refresh(w, ws)
    case RefreshSettled(ws, op) => ClearRefresh(w, ws, op)
    case DoSend(ws, content, hasAttachments, userMessage) => StartSend(w, ws, content, hasAttachments, userMessage)
    case SendThreadReplied(op, reply, spare) => SendThreadReply(w, op, reply, spare)
    case SendErrorRead(op, error, spare) => CatchSend(w, op, w.ops[op].ws, error, spare)
    case SendBodyRead(op, body, spare, fault) => SendThreadBody(w, op, body, spare, fault)
    case SendBodyRejected(op, error, spare) => CatchSend(w, op, w.ops[op].ws, error, spare)
    case SendStreamEnded(op, outcome, spare) => SendOutcome(w, op, outcome, spare)
    case Callback(op, item) => Deliver(w, op, item)
    case DoRecover(ws, provided) => StartRecovery(w, ws, provided)
    case RecoveryRunsReplied(op, reply) => RecoveryRunsReply(w, op, reply)
    case RecoveryRunsRead(op, runs, joins) => RecoveryRunList(w, op, runs, joins)
    case RecoveryRunsRejected(op) => CatchRecovery(w, op, w.ops[op], None)
    case RecoveryStreamEnded(op, ended) => RecoveryOutcome(w, op, ended)
    case RecoveryRefreshed(op) => FinishRecovery(w, op, w.ops[op].ws, w.ops[op].recovery.result)
  }

  function Step(w: World, a: Action): World {
    if Enabled(w, a) then Apply(w, a) else w
  }

  function Play(w: World, actions: seq<Action>): World
    decreases |actions|
  {
    if actions == [] then w else Play(Step(w, actions[0]), actions[1..])
  }
}
