/**
 * A whole turn of the chat, from the question to the result, over every interleaving: what the list holds when the
 * answer starts and when it is complete, and what the send returns.
 */
module ChatConversation {
  import opened Wrappers
  import Text
  import opened ChatProtocol
  import opened ChatInvariants
  import opened ChatEffects
  import opened ChatChannels
  import opened ChatTurns
  import opened ChatStreaming
  import opened ChatAnswers
  import opened ChatEndings
  import opened ChatFrames

  // ---------- The history in front ----------

  /** `kept` holds, in their order, exactly the messages of `listed` with an id that no message of `shown` has. */
  predicate IsUnseen(kept: seq<Message>, listed: seq<Message>, shown: seq<Message>, places: seq<nat>) {
    && |kept| == |places|
    && (forall k | 0 <= k < |places| :: places[k] < |listed| && kept[k] == listed[places[k]])
    && (forall k, l | 0 <= k < l < |places| :: places[k] < places[l])
    && (forall j | 0 <= j < |listed| :: j in places <==> forall m | m in shown :: m.id != listed[j].id)
  }

  lemma {:induction false} NotSeenLast(shown: seq<Message>, listed: seq<Message>, m: Message)
    ensures NotSeen(shown, listed + [m]) == NotSeen(shown, listed) + if HasId(shown, m.id) then [] else [m]
  {
    hide HasId;
    if listed == [] {
      assert ([] + [m])[1..] == [];
    } else {
      assert (listed + [m])[1..] == listed[1..] + [m];
      NotSeenLast(shown, listed[1..], m);
    }
  }

  lemma OneMorePlace(kept: seq<Message>, listed: seq<Message>, shown: seq<Message>, places: seq<nat>, m: Message)
    requires IsUnseen(kept, listed, shown, places)
    ensures if HasId(shown, m.id) then IsUnseen(kept, listed + [m], shown, places)
            else IsUnseen(kept + [m], listed + [m], shown, places + [|listed|])
  {
    var more := listed + [m];
    assert forall j | 0 <= j < |listed| :: more[j] == listed[j];
    assert forall j | j in places :: j < |listed|;
  }

  lemma {:induction false} NotSeenIsUnseen(shown: seq<Message>, listed: seq<Message>) returns (places: seq<nat>)
    ensures IsUnseen(NotSeen(shown, listed), listed, shown, places)
  {
    if listed == [] {
      places := [];
    } else {
      hide IsUnseen, NotSeen;
      var front, m := listed[..|listed| - 1], listed[|listed| - 1];
      assert listed == front + [m];
      places := NotSeenIsUnseen(shown, front);
      NotSeenLast(shown, front, m);
      OneMorePlace(NotSeen(shown, front), front, shown, places, m);
      if HasId(shown, m.id) {
        assert NotSeen(shown, front) + [] == NotSeen(shown, front);
      } else {
        places := places + [|front|];
      }
    }
  }

  lemma {:induction false} NothingSeen(shown: seq<Message>, listed: seq<Message>)
    requires forall m, n | m in shown && n in listed :: m.id != n.id
    ensures NotSeen(shown, listed) == listed
  {
    if listed != [] {
      assert listed[0] in listed;
      NothingSeen(shown, listed[1..]);
    }
  }

  lemma AnswerIsAppended(s: Store, o: Op, body: ThreadBody, id: MessageId)
    requires o.SendOp?
    ensures var t := AnswerStarted(s, o, body, id);
            && t.messages == Prior(s, o, body) + [Message(id, Assistant, [])]
            && t.threadIds == s.threadIds[o.ws := body.threadId]
  {
    hide NotSeen;
  }

  lemma AnswerOpens(u: World, i: OpId, body: ThreadBody, id: MessageId)
    requires Inv(u) && InSend(u, i, AwaitThreadBody) && u.store.requestId == Some(SendRequest(i)) && body.threadId != ""
    requires u.ops[i].hadMessages || !body.listing.Malformed?
    ensures Step(u, SendBodyRead(i, body, id, None)).store
         == AnswerStarted(u.store, u.ops[i], body, id).(stream := Some(i), abortController := None)
  {
    hide AnswerStarted;
    assert OpOk(u, i);
  }

  /**
   When the answer of a send starts, its thread is recorded, and the list is: in front, if the workspace had nothing to show
   when the send was made, the messages of the thread that are not shown yet, each once and in their order; then everything
   that was shown; then the empty answer.
   */
  lemma AnswerFollowsTheHistory(u: World, i: OpId, body: ThreadBody, id: MessageId) returns (kept: seq<Message>, places: seq<nat>)
    requires Inv(u) && InSend(u, i, AwaitThreadBody) && u.store.requestId == Some(SendRequest(i)) && body.threadId != ""
    requires u.ops[i].hadMessages || !body.listing.Malformed?
    ensures var v := Step(u, SendBodyRead(i, body, id, None));
            && v.store.messages == kept + u.store.messages + [Message(id, Assistant, [])]
            && v.store.threadIds == u.store.threadIds[u.ops[i].ws := body.threadId]
    ensures if u.ops[i].hadMessages || !body.listing.Listed? then kept == []
            else IsUnseen(kept, body.listing.messages, u.store.messages, places)
    ensures !u.ops[i].hadMessages && body.listing.Listed?
            && (forall m, n | m in u.store.messages && n in body.listing.messages :: m.id != n.id) ==>
              kept == body.listing.messages
  {
    hide NotSeen, IsUnseen, Step, AnswerStarted, Inv;
    AnswerOpens(u, i, body, id);
    AnswerIsAppended(u.store, u.ops[i], body, id);
    if u.ops[i].hadMessages || !body.listing.Listed? {
      kept, places := [], [];
      assert [] + u.store.messages == u.store.messages;
    } else {
      kept := NotSeen(u.store.messages, body.listing.messages);
      places := NotSeenIsUnseen(u.store.messages, body.listing.messages);
      if forall m, n | m in u.store.messages && n in body.listing.messages :: m.id != n.id {
        NothingSeen(u.store.messages, body.listing.messages);
      }
    }
  }

  // ---------- Asking ----------

  /** The characters the browser trims. */
  predicate IsTrimmed(c: char) {
    || c as int in {0x09, 0x0A, 0x0B, 0x0C, 0x0D, 0x20, 0xA0, 0x1680, 0x2028, 0x2029, 0x202F, 0x205F, 0x3000, 0xFEFF}
    || c as int in {0x2000, 0x2001, 0x2002, 0x2003, 0x2004, 0x2005, 0x2006, 0x2007, 0x2008, 0x2009, 0x200A}
  }

  predicate IsVisible(c: char) {
    !IsTrimmed(c)
  }

  lemma BlanksAreListed(c: char)
    ensures IsBlank(c) <==> IsTrimmed(c)
  {
  }

  /** There is something to send: a character that is not blank, or an attachment. */
  predicate HasContent(content: string, hasAttachments: bool) {
    hasAttachments || exists c | c in content :: IsVisible(c)
  }

  lemma TrimmedIsEmptyIfBlank(content: string)
    ensures Trim(content) != "" <==> exists c | c in content :: IsVisible(c)
  {
    forall c
      ensures IsBlank(c) <==> IsTrimmed(c)
    {
      BlanksAreListed(c);
    }
    hide IsBlank, IsTrimmed;
    if forall c | c in content :: IsBlank(c) {
      assert content + "" + "" == content;
      Text.StripIs(content, "", "", IsBlank);
    }
  }

  /** The question of an accepted send follows what its workspace shows, and the send has the store. */
  predicate Asked(w: World, v: World, ws: WorkspaceId, content: string, user: MessageId) {
    var i, shown := w.nextOp, Activate(w.store, ws).messages;
    && v.nextOp == i + 1
    && v.ops == w.ops[i := SendOp(ws, shown != [], user, AwaitThread, None)]
    && v.store.messages == shown + [Message(user, User, [TextBlock(content)])]
    && v.store.active == Some(ws) && v.store.isSending
    && v.store.requestId == Some(SendRequest(i)) && v.store.requestWorkspace == Some(ws)
    && v.store.abortController == Some(i) && v.store.stream.None?
    && v.store.threadIds == w.store.threadIds && v.store.finalized == w.store.finalized
    && Epoch(v.activityEpochs, ws) == Epoch(w.activityEpochs, ws) + 1
  }

  lemma ActivateReads(s: Store, ws: WorkspaceId)
    ensures var t := Activate(s, ws);
            && t.active == Some(ws) && ReadMessages(t, ws) == t.messages && t.threadIds == s.threadIds
            && t.finalized == s.finalized && (s.stream.None? ==> t.stream.None?)
  {
  }

  lemma QuestionIsAppended(s: Store, user: MessageId, content: string)
    ensures var t := Reduce(s, UserMessage(user, content, []));
            t == s.(messages := t.messages, stored := t.stored) && t.messages == s.messages + [Message(user, User, [TextBlock(content)])]
  {
  }

  lemma AcceptedSendAsks(w: World, ws: WorkspaceId, content: string, has: bool, user: MessageId)
    requires AcceptsSend(w, content, has) && w.store.stream.None?
    ensures Asked(w, StartSend(w, ws, content, has, user), ws, content, user)
  {
    ActivateReads(w.store, ws);
    hide Activate, ReadMessages, AcceptsSend, Reduce;
    var t := Activate(w.store, ws);
    QuestionIsAppended(t.(isSending := true, requestId := Some(SendRequest(w.nextOp)), requestWorkspace := Some(ws),
                          abortController := Some(w.nextOp)), user, content);
  }

  lemma RefusedSendIsNothing(w: World, ws: WorkspaceId, content: string, has: bool, user: MessageId)
    requires !AcceptsSend(w, content, has)
    ensures StartSend(w, ws, content, has, user) == w
  {
  }

  /**
   A send is accepted exactly when nothing is being sent and there is something to send. It then shows its workspace and
   puts its question, untrimmed, after what is shown there; otherwise it changes nothing.
   */
  lemma SendAsksIffItCan(w: World, ws: WorkspaceId, content: string, has: bool, user: MessageId)
    requires Inv(w)
    ensures var v := Step(w, DoSend(ws, content, has, user));
            if !w.store.isSending && HasContent(content, has) then Asked(w, v, ws, content, user) else v == w
  {
    hide StartSend, Asked, Trim, IsVisible;
    TrimmedIsEmptyIfBlank(content);
    if AcceptsSend(w, content, has) {
      AcceptedSendAsks(w, ws, content, has, user);
    } else {
      RefusedSendIsNothing(w, ws, content, has, user);
    }
  }

  // ---------- Waiting for the thread ----------

  /** Send `i` owns the store, its answer has not started, and `messages` are shown. */
  predicate Waits(w: World, i: OpId, ws: WorkspaceId, had: bool, user: MessageId, messages: seq<Message>) {
    && w.store.requestId == Some(SendRequest(i)) && w.store.messages == messages
    && i in w.ops && w.ops[i].SendOp? && !w.ops[i].phase.AwaitOutcome?
    && w.ops[i] == SendOp(ws, had, user, w.ops[i].phase, None)
    && i !in w.channels
  }

  lemma AskedWaits(w: World, v: World, ws: WorkspaceId, content: string, user: MessageId)
    requires Bounded(w) && Asked(w, v, ws, content, user) && v.channels == w.channels
    ensures var shown := Activate(w.store, ws).messages;
            Waits(v, w.nextOp, ws, shown != [], user, shown + [Message(user, User, [TextBlock(content)])])
  {
    hide Activate;
  }

  /** The reply to the thread request decides how a send that owns the store goes on; the record waits. */
  lemma ReplyDecides(w: World, i: OpId, reply: Reply, spare: MessageId)
    requires InSend(w, i, AwaitThread) && IsCurrentSend(w.store, i, w.ops[i].ws) && !reply.Rejected?
    ensures SendThreadReply(w, i, reply, spare)
         == w.(ops := w.ops[i := w.ops[i].(phase := match reply case Ok => AwaitThreadBody case _ => AwaitErrorText)])
  {
  }

  lemma ReplyWaits(w: World, i: OpId, reply: Reply, spare: MessageId, messages: seq<Message>)
    requires InSend(w, i, AwaitThread) && Waits(w, i, w.ops[i].ws, w.ops[i].hadMessages, w.ops[i].userMessage, messages)
    ensures var v := SendThreadReply(w, i, reply, spare);
            v.store.requestId == Some(SendRequest(i)) ==>
              Waits(v, i, w.ops[i].ws, w.ops[i].hadMessages, w.ops[i].userMessage, messages)
  {
    hide CatchSend, FinishSend;
    if reply.Rejected? {
      CatchGivesUp(w, i, w.ops[i].ws, reply.error, spare);
    } else if IsCurrentSend(w.store, i, w.ops[i].ws) {
      ReplyDecides(w, i, reply, spare);
    } else {
      FinishGivesUp(w, i, Cancelled);
    }
  }

  lemma BodyEndsWaiting(w: World, i: OpId, body: ThreadBody, assistant: MessageId, fault: Option<Thrown>)
    requires InSend(w, i, AwaitThreadBody)
    ensures var v := SendThreadBody(w, i, body, assistant, fault);
            v.store.requestId == Some(SendRequest(i)) ==> i in v.ops && v.ops[i].SendOp? && v.ops[i].phase.AwaitOutcome?
  {
    hide FinishSend, CatchSend, IsCurrentSend, AnswerStarted;
    var o := w.ops[i];
    FinishGivesUp(w, i, Cancelled);
    CatchGivesUp(w, i, o.ws, Thrown(false, THREAD_INVALID), assistant);
    if body.listing.Malformed? {
      CatchGivesUp(w.(store := ThreadNamed(w.store, o.ws, body)), i, o.ws, body.listing.error, assistant);
    }
    if fault.Some? {
      CatchGivesUp(w.(store := AnswerStarted(w.store, o, body, assistant)), i, o.ws, fault.value, assistant);
    }
  }

  lemma WaitingSegments(w: World, a: Action, i: OpId, messages: seq<Message>)
    requires Enabled(w, a) && Concerns(a, i) && i in w.ops && w.ops[i].SendOp?
    requires Waits(w, i, w.ops[i].ws, w.ops[i].hadMessages, w.ops[i].userMessage, messages)
    ensures a.SendThreadReplied? || a.SendErrorRead? || a.SendBodyRead? || a.SendBodyRejected?
  {
  }

  /** An own segment either lets the send wait on, or ends its waiting for good. */
  lemma OwnSegmentWaits(w: World, a: Action, i: OpId, messages: seq<Message>)
    requires Enabled(w, a) && Concerns(a, i) && i in w.ops && w.ops[i].SendOp?
    requires Waits(w, i, w.ops[i].ws, w.ops[i].hadMessages, w.ops[i].userMessage, messages)
    ensures var v := Step(w, a);
            v.store.requestId == Some(SendRequest(i)) ==>
              || Waits(v, i, w.ops[i].ws, w.ops[i].hadMessages, w.ops[i].userMessage, messages)
              || (i in v.ops && v.ops[i].SendOp? && v.ops[i].phase.AwaitOutcome?)
  {
    WaitingSegments(w, a, i, messages);
    hide CatchSend, SendThreadReply, SendThreadBody, Waits;
    match a
    case SendThreadReplied(op, reply, spare) => ReplyWaits(w, op, reply, spare, messages);
    case SendErrorRead(op, error, spare) => CatchGivesUp(w, op, w.ops[op].ws, error, spare);
    case SendBodyRead(op, body, spare, fault) => BodyEndsWaiting(w, op, body, spare, fault);
    case SendBodyRejected(op, error, spare) => CatchGivesUp(w, op, w.ops[op].ws, error, spare);
  }

  lemma NothingHappens(w: World, a: Action)
    requires !Enabled(w, a)
    ensures Step(w, a) == w
  {
  }

  lemma StepWaits(w: World, a: Action, i: OpId, ws: WorkspaceId, had: bool, user: MessageId, messages: seq<Message>)
    requires Inv(w) && Waits(w, i, ws, had, user, messages) && !a.DoEvent?
    requires Step(w, a).store.requestId == Some(SendRequest(i))
    ensures var v := Step(w, a);
            Waits(v, i, ws, had, user, messages) || (i in v.ops && v.ops[i].SendOp? && v.ops[i].phase.AwaitOutcome?)
  {
    hide Step, Enabled;
    if Concerns(a, i) {
      if Enabled(w, a) {
        OwnSegmentWaits(w, a, i, messages);
      } else {
        NothingHappens(w, a);
      }
    } else {
      assert i < w.nextOp by { assert Bounded(w); }
      HeldViewStays(w, a, i);
      OthersLeaveItAlone(w, a, i);
    }
  }

  /** Operation `i` follows its stream, or did until it ended. */
  predicate Streams(w: World, i: OpId) {
    i < w.nextOp && (i in w.ops ==> w.ops[i].SendOp? && w.ops[i].phase.AwaitOutcome?)
  }

  lemma ResetStreams(w: World, i: OpId)
    requires Streams(w, i)
    ensures Streams(Step(w, DoReset), i)
  {
  }

  lemma {:induction false} PlayStreams(w: World, actions: seq<Action>, i: OpId)
    requires Inv(w) && Streams(w, i)
    ensures Streams(Play(w, actions), i)
    decreases |actions|
  {
    hide Step, Inv;
    if actions != [] {
      StepKeepsInv(w, actions[0]);
      if actions[0] == DoReset {
        ResetStreams(w, i);
      } else {
        StepMoves(w, actions[0]);
      }
      PlayStreams(Step(w, actions[0]), actions[1..], i);
    }
  }

  lemma WaitingIsSend(w: World, i: OpId, ws: WorkspaceId, had: bool, user: MessageId, messages: seq<Message>)
    requires Bounded(w) && Waits(w, i, ws, had, user, messages)
    ensures WasSend(w, i) && w.store.requestId == Some(SendRequest(i))
  {
  }

  lemma LosingIsGone(w: World, a: Action, i: OpId)
    requires Inv(w) && WasSend(w, i) && Step(w, a).store.requestId != Some(SendRequest(i))
    ensures Gone(Step(w, a), i) && WasSend(Step(w, a), i)
  {
    if a == DoReset {
      assert Step(w, a) == Reset(w);
    } else {
      hide Step;
      assert Bounded(w);
      StepMoves(w, a);
      StepOpens(w, a);
      OpeningKeepsSend(w, Step(w, a), i);
    }
  }

  /** What a send owns in the end it owned all along. */
  lemma HeldThroughout(w: World, a: Action, rest: seq<Action>, i: OpId)
    requires Inv(w) && WasSend(w, i) && i in w.ops
    requires Play(Step(w, a), rest).store.requestId == Some(SendRequest(i))
    ensures Inv(Step(w, a)) && Step(w, a).store.requestId == Some(SendRequest(i))
  {
    hide Step, Inv;
    var next := Step(w, a);
    assert Inv(next) by { StepKeepsInv(w, a); }
    if next.store.requestId != Some(SendRequest(i)) {
      LosingIsGone(w, a, i);
      PlayKeepsGone(next, rest, i);
    }
  }

  /** Until the body of the thread is read, nothing but the question joins the list, however long that takes. */
  lemma {:induction false} PlayWaits(w: World, actions: seq<Action>, i: OpId, ws: WorkspaceId, had: bool, user: MessageId,
                                     messages: seq<Message>)
    requires Inv(w) && Waits(w, i, ws, had, user, messages) && NoForeignEvents(actions)
    requires Play(w, actions).store.requestId == Some(SendRequest(i)) && InSend(Play(w, actions), i, AwaitThreadBody)
    ensures Inv(Play(w, actions)) && Waits(Play(w, actions), i, ws, had, user, messages)
    decreases |actions|
  {
    hide Step, Inv, WasSend;
    if actions != [] {
      var a, rest := actions[0], actions[1..];
      assert Bounded(w) by { InvBounds(w); }
      WaitingIsSend(w, i, ws, had, user, messages);
      HeldThroughout(w, a, rest, i);
      StepWaits(w, a, i, ws, had, user, messages);
      if Waits(Step(w, a), i, ws, had, user, messages) {
        PlayWaits(Step(w, a), rest, i, ws, had, user, messages);
      } else {
        assert i < Step(w, a).nextOp by { InvBounds(Step(w, a)); }
        PlayStreams(Step(w, a), rest, i);
      }
    }
  }

  // ---------- What the stream launched ----------

  /** The mission that an item says was started. */
  function MissionOf(item: StreamItem): Option<string> {
    match item
    case Final(StatusLine(_, runId, _, action)) =>
      if action == "start_mission" && Trim(runId) != "" then Some(Trim(runId)) else None
    case _ => None
  }

  /** The last mission that the items say was started. */
  function LastMission(items: seq<StreamItem>): Option<string> {
    if items == [] then None
    else
      var last := |items| - 1;
      if MissionOf(items[last]).Some? then MissionOf(items[last]) else LastMission(items[..last])
  }

  function Later(earlier: Option<string>, later: Option<string>): Option<string> {
    if later.Some? then later else earlier
  }

  lemma {:induction false} LastMissionConcat(first: seq<StreamItem>, second: seq<StreamItem>)
    ensures LastMission(first + second) == Later(LastMission(first), LastMission(second))
    decreases |second|
  {
    hide MissionOf;
    if second == [] {
      assert first + second == first;
    } else {
      var last := |second| - 1;
      assert (first + second)[..|first| + last] == first + second[..last];
      LastMissionConcat(first, second[..last]);
    }
  }

  lemma OneMission(item: StreamItem)
    ensures LastMission([item]) == MissionOf(item)
  {
    assert [item][..0] == [];
  }

  lemma ItemLaunches(o: Op, item: StreamItem)
    requires !o.LoadOp?
    ensures NoteLaunch(o, item) == o.(launched := Later(o.launched, MissionOf(item)))
  {
    hide Trim;
  }

  lemma OwnCallbackLaunches(w: World, item: StreamItem, i: OpId, id: MessageId)
    requires Inv(w) && Live(w, i, id)
    ensures var v := Step(w, Callback(i, item)); i in v.ops && v.ops[i] == NoteLaunch(w.ops[i], item)
  {
    hide Reduce, NoteLaunch;
    assert OpOk(w, i);
  }

  lemma LiveSegments(w: World, a: Action, i: OpId, id: MessageId)
    requires Live(w, i, id) && Concerns(a, i) && Enabled(w, a)
    ensures a.SendStreamEnded? || a.Callback?
  {
  }

  lemma LiveIsSend(w: World, i: OpId, id: MessageId)
    requires Live(w, i, id)
    ensures i in w.ops && w.ops[i].SendOp?
  {
  }

  lemma NoMission()
    ensures LastMission([]) == None
  {
  }

  lemma StepLaunches(w: World, a: Action, i: OpId, id: MessageId)
    requires Inv(w) && Live(w, i, id) && Step(w, a).store.requestId == Some(SendRequest(i))
    ensures i in w.ops && !w.ops[i].LoadOp? && i in Step(w, a).ops && !Step(w, a).ops[i].LoadOp?
    ensures Step(w, a).ops[i].launched == Later(w.ops[i].launched, LastMission(Delivered([a], i)))
  {
    hide Step, Inv, Live, Enabled, MissionOf, LastMission, NoteLaunch;
    assert Bounded(w) by { InvBounds(w); }
    LiveIsSend(w, i, id);
    if a.Callback? && a.op == i {
      OwnCallbackLaunches(w, a.item, i, id);
      ItemLaunches(w.ops[i], a.item);
      assert Delivered([a], i) == [a.item];
      OneMission(a.item);
    } else {
      assert Delivered([a], i) == [];
      assert LastMission([]) == None by { NoMission(); }
      if !Enabled(w, a) {
        NothingHappens(w, a);
      } else if Concerns(a, i) {
        LiveSegments(w, a, i, id);
        assert OfASend(a);
        OwnSendEnds(w, a, i, id);
      } else {
        OthersLeaveItAlone(w, a, i);
      }
    }
  }

  lemma LiveGoesOn(w: World, a: Action, rest: seq<Action>, i: OpId, id: MessageId)
    requires Inv(w) && Live(w, i, id) && Play(Step(w, a), rest).store.requestId == Some(SendRequest(i))
    ensures Inv(Step(w, a)) && Live(Step(w, a), i, id)
  {
    LiveThroughout(w, a, rest, i, id);
  }

  lemma {:induction false} PlayLaunches(w: World, actions: seq<Action>, i: OpId, id: MessageId)
    requires Inv(w) && Live(w, i, id) && Play(w, actions).store.requestId == Some(SendRequest(i))
    ensures i in w.ops && !w.ops[i].LoadOp?
    ensures var v := Play(w, actions);
            && Inv(v) && Live(v, i, id) && i in v.ops && !v.ops[i].LoadOp?
            && v.ops[i].launched == Later(w.ops[i].launched, LastMission(Delivered(actions, i)))
    decreases |actions|
  {
    hide Step, Inv, Live, Delivered, LastMission;
    LiveIsSend(w, i, id);
    if actions == [] {
      NothingDelivered(i);
      NoMission();
    } else {
      var a, rest := actions[0], actions[1..];
      LiveGoesOn(w, a, rest, i, id);
      assert Step(w, a).store.requestId == Some(SendRequest(i)) by { LiveOwns(Step(w, a), i, id); }
      StepLaunches(w, a, i, id);
      PlayLaunches(Step(w, a), rest, i, id);
      DeliveredFirst(actions, i);
      LastMissionConcat(Delivered([a], i), Delivered(rest, i));
    }
  }

  // ---------- The whole turn ----------

  /** What a turn returns whose stream ended after these items. */
  function ResultOf(outcome: StreamOutcome, items: seq<StreamItem>): TurnResult {
    match outcome
    case StreamCompleted => if LastMission(items).Some? then Launched(LastMission(items).value) else Completed
    case StreamFailed(error) => Failed(error)
    case StreamCancelled => Cancelled
  }

  /** A completed stream ends the turn and leaves every list as it is. */
  lemma CompletionKeepsLists(v: World, i: OpId, id: MessageId, spare: MessageId)
    requires Inv(v) && Live(v, i, id)
    ensures i in v.ops && v.ops[i].SendOp?
    ensures var x := Step(v, SendStreamEnded(i, StreamCompleted, spare));
            && x.store == v.store.(currentAssistant := None, isSending := false, requestId := None, requestWorkspace := None,
                                   abortController := None, stream := None)
            && i !in x.ops
            && x.results == v.results[i := if v.ops[i].launched.Some? then Launched(v.ops[i].launched.value) else Completed]
  {
    assert OpOk(v, i);
    hide Inv;
  }

  lemma ListIsStored(s: Store)
    requires Consistent(s) && s.active.Some?
    ensures StoredMessages(s, KeyOf(s.active.value)) == s.messages
  {
  }

  lemma LiveIsShown(w: World, i: OpId, id: MessageId)
    requires Inv(w) && Live(w, i, id)
    ensures w.ops[i].SendOp? && w.store.active == Some(w.ops[i].ws) && Consistent(w.store)
  {
    assert OpOk(w, i);
  }

  lemma {:induction false} PlayKeepsWorkspace(w: World, actions: seq<Action>, i: OpId, id: MessageId)
    requires Inv(w) && Live(w, i, id) && Play(w, actions).store.requestId == Some(SendRequest(i))
    ensures i in w.ops && i in Play(w, actions).ops && Play(w, actions).ops[i].ws == w.ops[i].ws
    decreases |actions|
  {
    hide Step, Inv, Live;
    LiveIsSend(w, i, id);
    if actions != [] {
      var a, rest := actions[0], actions[1..];
      LiveGoesOn(w, a, rest, i, id);
      assert a != DoReset by { LiveThroughout(w, a, rest, i, id); }
      LiveIsSend(Step(w, a), i, id);
      StepMoves(w, a);
      PlayKeepsWorkspace(Step(w, a), rest, i, id);
    }
  }

  lemma AnswerAtTheEnd(prior: seq<Message>, front: seq<Message>, id: MessageId, blocks: seq<Block>)
    requires front + [Message(id, Assistant, [])] == prior + [Message(id, Assistant, [])]
    ensures Reblocked(prior + [Message(id, Assistant, [])], |prior|, blocks) == front + [Message(id, Assistant, blocks)]
  {
    assert |front| == |prior|;
    assert front == (front + [Message(id, Assistant, [])])[..|prior|] == prior;
  }

  lemma SendOpensNothing(w: World, ws: WorkspaceId, content: string, has: bool, user: MessageId)
    ensures Step(w, DoSend(ws, content, has, user)).channels == w.channels
  {
    hide Activate, Reduce, ReadMessages, AcceptsSend;
  }

  lemma BegunOp(u: World, i: OpId, body: ThreadBody, id: MessageId)
    requires Inv(u) && MayAnswer(u, i, body, id)
    ensures var w := Step(u, SendBodyRead(i, body, id, None));
            i in w.ops && w.ops[i] == u.ops[i].(phase := AwaitOutcome(id))
  {
    hide AnswerStarted, IsFreshId;
    assert OpOk(u, i);
  }

  /**
   A send that is answered to its end. Whatever runs in between, as long as the send keeps the store, its workspace is
   left with the messages of its thread that were not shown, if nothing was shown; then what was shown; then the question;
   then what its own stream delivered, and nothing else. The send returns the last mission its own stream announced, or
   just that it completed, and gives the store back.
   */
  lemma CompletedSendLeavesQuestionAndAnswer(
    w: World, ws: WorkspaceId, content: string, has: bool, user: MessageId, waiting: seq<Action>,
    body: ThreadBody, id: MessageId, streaming: seq<Action>, spare: MessageId)
    returns (kept: seq<Message>, places: seq<nat>)
    requires Inv(w) && !w.store.isSending && HasContent(content, has)
    requires NoForeignEvents(waiting) && NoForeignEvents(streaming)
    requires MayAnswer(Play(Step(w, DoSend(ws, content, has, user)), waiting), w.nextOp, body, id)
    requires var u := Play(Step(w, DoSend(ws, content, has, user)), waiting);
             Play(Step(u, SendBodyRead(w.nextOp, body, id, None)), streaming).store.requestId == Some(SendRequest(w.nextOp))
    ensures var i, shown := w.nextOp, Activate(w.store, ws).messages;
            var u := Play(Step(w, DoSend(ws, content, has, user)), waiting);
            var v := Play(Step(u, SendBodyRead(i, body, id, None)), streaming);
            var x := Step(v, SendStreamEnded(i, StreamCompleted, spare));
            var question := Message(user, User, [TextBlock(content)]);
            var answer := Message(id, Assistant, TellAll(Answer([], false), Delivered(streaming, i)).blocks);
            && x.store.messages == kept + (shown + [question]) + [answer]
            && StoredMessages(x.store, KeyOf(ws)) == x.store.messages && x.store.active == Some(ws)
            && (if shown != [] || !body.listing.Listed? then kept == []
                else IsUnseen(kept, body.listing.messages, shown + [question], places))
            && i in x.results && x.results[i] == ResultOf(StreamCompleted, Delivered(streaming, i))
            && Freed(x.store)
  {
    hide Step, Inv, Live, Shows, Delivered, Prior, IsFreshId, Activate, LastMission, HasContent, IsUnseen, Asked, TellAll;
    var i := w.nextOp;
    var asked := Step(w, DoSend(ws, content, has, user));
    SendAsksIffItCan(w, ws, content, has, user);
    StepKeepsInv(w, DoSend(ws, content, has, user));
    assert Bounded(w) by { InvBounds(w); }
    SendOpensNothing(w, ws, content, has, user);
    AskedWaits(w, asked, ws, content, user);
    var shown := Activate(w.store, ws).messages;
    var asks := shown + [Message(user, User, [TextBlock(content)])];
    var u := Play(asked, waiting);
    PlayWaits(asked, waiting, i, ws, shown != [], user, asks);
    kept, places := AnswerFollowsTheHistory(u, i, body, id);
    AnswerStarts(u, i, body, id);
    var begun := Step(u, SendBodyRead(i, body, id, None));
    var v := Play(begun, streaming);
    PlayTells(begun, streaming, i, id, |Prior(u.store, u.ops[i], body)|, Answer([], false));
    PlayLaunches(begun, streaming, i, id);
    PlayKeepsWorkspace(begun, streaming, i, id);
    BegunOp(u, i, body, id);
    LiveIsShown(v, i, id);
    CompletionKeepsLists(v, i, id, spare);
    ListIsStored(v.store);
    var answer := Message(id, Assistant, TellAll(Answer([], false), Delivered(streaming, i)).blocks);
    assert kept + asks + [Message(id, Assistant, [])] == Prior(u.store, u.ops[i], body) + [Message(id, Assistant, [])];
    AnswerAtTheEnd(Prior(u.store, u.ops[i], body), kept + asks, id, answer.blocks);
  }
}
