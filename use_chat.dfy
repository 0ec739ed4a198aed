/** The chat session of one room (hooks/useChat.ts): the state it keeps
    (messages, connection flag, who is typing, the conversation list), the
    inbound socket events that update it, and the outbound events it emits.
    The socket is a log of the calls made on it; inbound events are methods. */
module UseChat {

  import opened Optional
  import opened JsString
  import opened ChatTypes
  import opened Timers

  /** How many messages the history request asks for. */
  const HistoryLimit: nat := 50

  /** Delay after which a "typing" signal is withdrawn automatically. */
  const TypingTimeoutMs: nat := 3000

  /** The identity a session is opened with. */
  datatype ChatOptions = ChatOptions(roomId: string, userId: string, userName: string, userType: UserType)

  /** Payloads of the outbound events. */
  datatype Payload =
    | JoinRoomPayload(roomId: string, userId: string, userName: string)
    | GetHistoryPayload(roomId: string, limit: nat)
    | SendMessagePayload(roomId: string, userId: string, userName: string, userType: UserType, message: string)
    | TypingPayload(roomId: string, userName: string, isTyping: bool)
    | LeaveRoomPayload(roomId: string, userName: string)

  /** The inbound events the session listens to. */
  datatype InboundEvent =
    | RoomJoinedEvent | ChatHistoryEvent | ReceiveMessageEvent | UserJoinedEvent
    | UserLeftEvent | UserTypingEvent | ConnectEvent | DisconnectEvent
  {
    /** The event's name on the wire. */
    function Name(): string {
      match this
      case RoomJoinedEvent => "room_joined"
      case ChatHistoryEvent => "chat_history"
      case ReceiveMessageEvent => "receive_message"
      case UserJoinedEvent => "user_joined"
      case UserLeftEvent => "user_left"
      case UserTypingEvent => "user_typing"
      case ConnectEvent => "connect"
      case DisconnectEvent => "disconnect"
    }
  }

  /** One call on the socket: an emission (event name and payload), or the
      registration or removal of the handler for an inbound event. */
  datatype SocketCall = Emit(event: string, payload: Payload) | On(inbound: InboundEvent) | Off(inbound: InboundEvent)

  /** The inbound events in registration order. */
  const HandledEvents: seq<InboundEvent> :=
    [RoomJoinedEvent, ChatHistoryEvent, ReceiveMessageEvent, UserJoinedEvent,
     UserLeftEvent, UserTypingEvent, ConnectEvent, DisconnectEvent]

  /** How many times `x` occurs in `s`. */
  function Occurrences<T(==)>(s: seq<T>, x: T): nat
    decreases |s|
  {
    if s == [] then 0 else (if s[0] == x then 1 else 0) + Occurrences(s[1..], x)
  }

  lemma {:induction false} OccurrencesConcat<T>(a: seq<T>, b: seq<T>, x: T)
    ensures Occurrences(a + b, x) == Occurrences(a, x) + Occurrences(b, x)
    decreases |a|
  {
    if a == [] {
      assert a + b == b;
    } else {
      assert (a + b)[0] == a[0] && (a + b)[1..] == a[1..] + b;
      OccurrencesConcat(a[1..], b, x);
    }
  }

  /** One registration per event, in the given order. */
  function OnEach(events: seq<InboundEvent>): (r: seq<SocketCall>)
    ensures |r| == |events| && forall i :: 0 <= i < |r| ==> r[i] == On(events[i])
    ensures forall e :: Occurrences(r, On(e)) == Occurrences(events, e) && Occurrences(r, Off(e)) == 0
  {
    forall e ensures Occurrences(Calls(events, true), On(e)) == Occurrences(events, e)
                     && Occurrences(Calls(events, true), Off(e)) == 0 {
      CallsCount(events, true, e);
    }
    Calls(events, true)
  }

  /** One removal per event, in the given order. */
  function OffEach(events: seq<InboundEvent>): (r: seq<SocketCall>)
    ensures |r| == |events| && forall i :: 0 <= i < |r| ==> r[i] == Off(events[i])
    ensures forall e :: Occurrences(r, Off(e)) == Occurrences(events, e) && Occurrences(r, On(e)) == 0
  {
    forall e ensures Occurrences(Calls(events, false), Off(e)) == Occurrences(events, e)
                     && Occurrences(Calls(events, false), On(e)) == 0 {
      CallsCount(events, false, e);
    }
    Calls(events, false)
  }

  /** The registration (or removal) of one event. */
  function Call(e: InboundEvent, on: bool): SocketCall
  {
    if on then On(e) else Off(e)
  }

  /** The registrations (or removals) of a list of events, one per event. */
  function Calls(events: seq<InboundEvent>, on: bool): seq<SocketCall>
  {
    seq(|events|, i requires 0 <= i < |events| => Call(events[i], on))
  }

  /** Each event's calls are counted as the events list counts the event,
      and no call of the other kind appears. */
  lemma {:induction false} CallsCount(events: seq<InboundEvent>, on: bool, e: InboundEvent)
    ensures Occurrences(Calls(events, on), Call(e, on)) == Occurrences(events, e)
    ensures Occurrences(Calls(events, on), Call(e, !on)) == 0
    decreases |events|
  {
    if events != [] {
      CallsTail(events, on);
      CallsCount(events[1..], on, e);
    }
  }

  lemma CallsTail(events: seq<InboundEvent>, on: bool)
    requires events != []
    ensures Calls(events, on)[0] == Call(events[0], on)
    ensures Calls(events, on)[1..] == Calls(events[1..], on)
  {
    var r, t := Calls(events, on), Calls(events[1..], on);
    forall k | 0 <= k < |t| ensures r[1..][k] == t[k] {
      assert r[k + 1] == Call(events[k + 1], on) && events[1..][k] == events[k + 1];
    }
  }

  /** Every inbound event is listed exactly once, and their wire names are
      distinct. */
  lemma HandledEventsOnce()
    ensures forall e: InboundEvent :: Occurrences(HandledEvents, e) == 1
    ensures forall e: InboundEvent, f: InboundEvent :: e.Name() == f.Name() ==> e == f
  {
    forall e: InboundEvent ensures Occurrences(HandledEvents, e) == 1 {
      OccurrencesWithoutRepeats(HandledEvents, e);
      match e
      case RoomJoinedEvent => assert HandledEvents[0] == e;
      case ChatHistoryEvent => assert HandledEvents[1] == e;
      case ReceiveMessageEvent => assert HandledEvents[2] == e;
      case UserJoinedEvent => assert HandledEvents[3] == e;
      case UserLeftEvent => assert HandledEvents[4] == e;
      case UserTypingEvent => assert HandledEvents[5] == e;
      case ConnectEvent => assert HandledEvents[6] == e;
      case DisconnectEvent => assert HandledEvents[7] == e;
    }
  }

  lemma {:induction false} OccurrencesWithoutRepeats<T>(s: seq<T>, x: T)
    requires forall i, j :: 0 <= i < j < |s| ==> s[i] != s[j]
    ensures Occurrences(s, x) == if x in s then 1 else 0
    decreases |s|
  {
    if s != [] {
      assert forall i, j :: 0 <= i < j < |s| - 1 ==> s[1..][i] != s[1..][j] by {
        forall i, j | 0 <= i < j < |s| - 1 ensures s[1..][i] != s[1..][j] {
          assert s[1..][i] == s[i + 1] && s[1..][j] == s[j + 1];
        }
      }
      OccurrencesWithoutRepeats(s[1..], x);
      if s[0] == x {
        assert x !in s[1..] by {
          forall k | 0 <= k < |s| - 1 ensures s[1..][k] != x { assert s[1..][k] == s[k + 1]; }
        }
      } else {
        assert x in s <==> x in s[1..] by {
          assert s == [s[0]] + s[1..];
        }
      }
    }
  }

  /** The effect's registrations, one per inbound event. */
  function Subscribe(): (r: seq<SocketCall>)
    ensures forall k :: 0 <= k < |r| ==> r[k].On?
  {
    OnEach(HandledEvents)
  }

  /** The cleanup's removals, one per inbound event. */
  function Unsubscribe(): (r: seq<SocketCall>)
    ensures forall k :: 0 <= k < |r| ==> r[k].Off?
  {
    OffEach(HandledEvents)
  }

  /** The effect registers exactly one handler for every inbound event and
      removes none; the cleanup removes exactly one handler for every
      inbound event and registers none. */
  lemma SubscriptionCounts()
    ensures forall e :: Occurrences(Subscribe(), On(e)) == 1 && Occurrences(Subscribe(), Off(e)) == 0
    ensures forall e :: Occurrences(Unsubscribe(), Off(e)) == 1 && Occurrences(Unsubscribe(), On(e)) == 0
  {
    HandledEventsOnce();
  }

  /** Registrations and removals both follow the source order of the
      handlers, which is the order of `HandledEvents`. */
  lemma HandlersInSourceOrder()
    ensures |Subscribe()| == |Unsubscribe()| == |HandledEvents|
    ensures forall i :: 0 <= i < |HandledEvents| ==>
              Subscribe()[i] == On(HandledEvents[i]) && Unsubscribe()[i] == Off(HandledEvents[i])
  {
  }

  /** Every handler registration in `log` has been matched by a removal,
      except, when `open`, one live handler per inbound event. */
  ghost predicate Balanced(log: seq<SocketCall>, open: bool) {
    forall e: InboundEvent :: Occurrences(log, On(e)) == Occurrences(log, Off(e)) + (if open then 1 else 0)
  }

  /** Appending calls that register and remove each handler equally often
      keeps the balance. */
  lemma BalancedAppend(log: seq<SocketCall>, extra: seq<SocketCall>, open: bool, after: bool)
    requires Balanced(log, open)
    requires forall e: InboundEvent :: Occurrences(extra, On(e)) + (if open then 1 else 0)
                                      == Occurrences(extra, Off(e)) + (if after then 1 else 0)
    ensures Balanced(log + extra, after)
  {
    forall e: InboundEvent
      ensures Occurrences(log + extra, On(e)) == Occurrences(log + extra, Off(e)) + (if after then 1 else 0)
    {
      OccurrencesConcat(log, extra, On(e));
      OccurrencesConcat(log, extra, Off(e));
    }
  }

  /** An emission leaves the handlers as they were. */
  lemma BalancedEmit(log: seq<SocketCall>, c: SocketCall, open: bool)
    requires Balanced(log, open) && c.Emit?
    ensures Balanced(log + [c], open)
  {
    BalancedAppend(log, [c], open, open);
  }

  function JoinRoom(o: ChatOptions): (r: SocketCall)
    ensures r.Emit? && r.event == "join_room"
  {
    Emit("join_room", JoinRoomPayload(o.roomId, o.userId, o.userName))
  }

  /** The effect's cleanup: `leave_room`, then the removals. */
  function Cleanup(o: ChatOptions): (r: seq<SocketCall>)
    ensures |r| == |HandledEvents| + 1 && r[0] == Emit("leave_room", LeaveRoomPayload(o.roomId, o.userName))
    ensures r[1..] == Unsubscribe()
  {
    [Emit("leave_room", LeaveRoomPayload(o.roomId, o.userName))] + Unsubscribe()
  }

  /** The calls the effect makes when it runs for `o`: none without options. */
  function Opening(o: Option<ChatOptions>): seq<SocketCall>
  {
    if o.Some? then [JoinRoom(o.value)] + Subscribe() else []
  }

  /** The calls the cleanup makes: none when no effect is running. */
  function Closing(running: bool, o: Option<ChatOptions>): seq<SocketCall>
    requires running ==> o.Some?
  {
    if running then Cleanup(o.value) else []
  }

  /** A session's calls from the effect to its cleanup, whatever was emitted
      in between: every handler registered has been removed, and every
      removal comes after the `leave_room` emission. */
  lemma CleanupRemovesEveryHandler(o: ChatOptions, between: seq<SocketCall>)
    requires forall k :: 0 <= k < |between| ==> between[k].Emit?
    ensures var log := [JoinRoom(o)] + Subscribe() + between + Cleanup(o);
            var n := |log| - |Cleanup(o)|;
            && (forall e :: Occurrences(log, On(e)) == Occurrences(log, Off(e)))
            && log[n] == Emit("leave_room", LeaveRoomPayload(o.roomId, o.userName))
            && (forall k :: 0 <= k < |log| && log[k].Off? ==> k > n)
  {
    var leave := Emit("leave_room", LeaveRoomPayload(o.roomId, o.userName));
    var start := [JoinRoom(o)] + Subscribe();
    var log := start + between + Cleanup(o);
    assert Balanced(log, false) by {
      BalancedOpen([], o);
      assert [] + start == start;
      EmitsOnly(between);
      BalancedAppend(start, between, true, true);
      BalancedClose(start + between, o);
    }
    assert Cleanup(o) == [leave] + OffEach(HandledEvents);
    CleanupFirst(JoinRoom(o), leave, HandledEvents, between);
  }

  lemma {:induction false} EmitsOnly(calls: seq<SocketCall>)
    requires forall k :: 0 <= k < |calls| ==> calls[k].Emit?
    ensures forall e :: Occurrences(calls, On(e)) == 0 && Occurrences(calls, Off(e)) == 0
    decreases |calls|
  {
    if calls != [] {
      EmitsOnly(calls[1..]);
    }
  }

  /** In the same log every removal comes after `leave`. */
  lemma CleanupFirst(join: SocketCall, leave: SocketCall, events: seq<InboundEvent>, between: seq<SocketCall>)
    requires join.Emit? && leave.Emit?
    requires forall k :: 0 <= k < |between| ==> between[k].Emit?
    ensures var log := [join] + OnEach(events) + between + [leave] + OffEach(events);
            var n := |log| - |events| - 1;
            && log[n] == leave
            && (forall k :: 0 <= k < |log| && log[k].Off? ==> k > n)
  {
    var start := [join] + OnEach(events);
    var log := start + between + [leave] + OffEach(events);
    var n := |start + between|;
    assert log[n] == leave;
    forall k | 0 <= k < n
      ensures !log[k].Off?
    {
      if k < |start| {
        assert log[k] == start[k];
        if k > 0 { assert start[k] == OnEach(events)[k - 1]; }
      } else {
        assert log[k] == between[k - |start|];
      }
    }
  }

  function TypingCall(o: ChatOptions, isTyping: bool): SocketCall {
    Emit("typing", TypingPayload(o.roomId, o.userName, isTyping))
  }

  /** The value of the last "typing" emission in a log, false if none. */
  function LastTypingSent(log: seq<SocketCall>): bool {
    if log == [] then false
    else
      var last := log[|log| - 1];
      if last.Emit? && last.payload.TypingPayload? then last.payload.isTyping
      else LastTypingSent(log[..|log| - 1])
  }

  /** Calls that are not "typing" emissions do not change the last typing
      status sent. */
  lemma {:induction false} LastTypingSentSkips(log: seq<SocketCall>, extra: seq<SocketCall>)
    requires forall k :: 0 <= k < |extra| ==> !(extra[k].Emit? && extra[k].payload.TypingPayload?)
    ensures LastTypingSent(log + extra) == LastTypingSent(log)
    decreases |extra|
  {
    if extra == [] {
      assert log + extra == log;
    } else {
      var all, init := log + extra, extra[..|extra| - 1];
      var last := extra[|extra| - 1];
      assert all[|all| - 1] == last;
      assert !(last.Emit? && last.payload.TypingPayload?);
      assert all[..|all| - 1] == log + init;
      assert LastTypingSent(all) == LastTypingSent(log + init);
      LastTypingSentSkips(log, init);
    }
  }

  // ---------------------------------------------------------------------
  // Messages

  /** `[...prev, message]`: live messages are appended, never merged. */
  function AppendMessage(prev: seq<Message>, m: Message): (r: seq<Message>)
    ensures |r| == |prev| + 1 && r[..|prev|] == prev && r[|prev|] == m
    ensures multiset(r)[m] == multiset(prev)[m] + 1
  {
    prev + [m]
  }

  // ---------------------------------------------------------------------
  // Typing users

  predicate NoDuplicates(s: seq<string>) {
    forall i, j :: 0 <= i < j < |s| ==> s[i] != s[j]
  }

  lemma NoDuplicatesTail(s: seq<string>)
    requires s != []
    ensures NoDuplicates(s) ==> s[0] !in s[1..] && NoDuplicates(s[1..])
  {
    if NoDuplicates(s) {
      forall k | 0 <= k < |s| - 1 ensures s[1..][k] != s[0] { assert s[1..][k] == s[k + 1]; }
    }
  }

  /** `r` can be obtained from `s` by deleting elements: the elements it
      keeps stay in their order. */
  predicate Subsequence(r: seq<string>, s: seq<string>)
    decreases |s|
  {
    if r == [] then true
    else if s == [] then false
    else if r[0] == s[0] then Subsequence(r[1..], s[1..])
    else Subsequence(r, s[1..])
  }

  lemma SubsequenceOfItself(s: seq<string>)
    ensures Subsequence(s, s)
    decreases |s|
  {
    if s != [] {
      SubsequenceOfItself(s[1..]);
    }
  }

  /** `prev.filter(name => name !== x)`: every occurrence of `x` is dropped,
      everything else is kept, as often as before and in its order. */
  function RemoveAll(s: seq<string>, x: string): (r: seq<string>)
    ensures x !in r
    ensures multiset(r) == multiset(s)[x := 0]
    ensures Subsequence(r, s)
    ensures forall y :: y != x ==> (y in r <==> y in s)
    ensures NoDuplicates(s) ==> NoDuplicates(r)
    ensures x !in s ==> r == s
  {
    if s == [] then []
    else
      assert s == [s[0]] + s[1..];
      if s[0] == x then RemoveAll(s[1..], x)
      else
        var rest := RemoveAll(s[1..], x);
        NoDuplicatesTail(s);
        assert ([s[0]] + rest)[1..] == rest;
        [s[0]] + rest
  }

  /** The update `handleUserTyping` applies to the typing list. */
  function ApplyTyping(prev: seq<string>, localName: string, name: string, isTyping: bool): (r: seq<string>)
    ensures name == localName ==> r == prev
    ensures name != localName ==> (name in r <==> isTyping)
    ensures forall y :: y != name ==> (y in r <==> y in prev)
    ensures NoDuplicates(prev) ==> NoDuplicates(r)
    ensures isTyping ==> r == prev || r == prev + [name]
    ensures isTyping && name in prev ==> r == prev
    ensures !isTyping ==>
              && Subsequence(r, prev)
              && multiset(r) == (if name == localName then multiset(prev) else multiset(prev)[name := 0])
  {
    if name == localName then SubsequenceOfItself(prev); prev
    else if isTyping then (if name in prev then prev else prev + [name])
    else RemoveAll(prev, name)
  }

  /** Applying the same typing event twice is applying it once. */
  lemma ApplyTypingIdempotent(prev: seq<string>, localName: string, name: string, isTyping: bool)
    ensures var once := ApplyTyping(prev, localName, name, isTyping);
            ApplyTyping(once, localName, name, isTyping) == once
  {
  }

  datatype TypingEvent = TypingEvent(userName: string, isTyping: bool)

  /** A run of typing events applied in arrival order. */
  function ApplyTypingEvents(prev: seq<string>, localName: string, evs: seq<TypingEvent>): seq<string>
    decreases |evs|
  {
    if evs == [] then prev
    else ApplyTypingEvents(ApplyTyping(prev, localName, evs[0].userName, evs[0].isTyping), localName, evs[1..])
  }

  /** The typing state of `name` after `evs`: the flag of the last event
      about `name`, or `before` if there is none. */
  function LastTypingState(evs: seq<TypingEvent>, name: string, before: bool): bool
    decreases |evs|
  {
    if evs == [] then before
    else LastTypingState(evs[1..], name, if evs[0].userName == name then evs[0].isTyping else before)
  }

  /** After any run of typing events, another user is listed exactly when the
      last event about them said "typing", the local user is never listed,
      and nobody is listed twice. */
  lemma {:induction false} LastTypingEventWins(prev: seq<string>, localName: string, evs: seq<TypingEvent>, name: string)
    requires name != localName && localName !in prev && NoDuplicates(prev)
    ensures var r := ApplyTypingEvents(prev, localName, evs);
            && (name in r <==> LastTypingState(evs, name, name in prev))
            && localName !in r
            && NoDuplicates(r)
    decreases |evs|
  {
    if evs != [] {
      var next := ApplyTyping(prev, localName, evs[0].userName, evs[0].isTyping);
      assert (name in next) == (if evs[0].userName == name then evs[0].isTyping else name in prev);
      LastTypingEventWins(next, localName, evs[1..], name);
    }
  }

  // ---------------------------------------------------------------------
  // Conversation list

  /** `conversations.findIndex(c => c.id === roomId)`. */
  function FindConversation(cs: seq<Conversation>, roomId: string): (r: Option<nat>)
    ensures r.Some? ==> r.value < |cs| && cs[r.value].id == roomId
    ensures r.Some? ==> forall j :: 0 <= j < r.value ==> cs[j].id != roomId
    ensures r.None? <==> forall j :: 0 <= j < |cs| ==> cs[j].id != roomId
  {
    if cs == [] then None
    else if cs[0].id == roomId then Some(0)
    else match FindConversation(cs[1..], roomId)
      case None => None
      case Some(i) => Some(i + 1)
  }

  /** The conversation after `m` arrived in it: its last-message summary and
      `updatedAt` come from `m`; nothing else changes. */
  function Touch(c: Conversation, m: Message): (r: Conversation)
    ensures r.lastMessage == Some(LastMessage(m.message, m.userId, m.userName, m.timestamp))
    ensures r.updatedAt == m.timestamp
    ensures r.(lastMessage := c.lastMessage, updatedAt := c.updatedAt) == c
  {
    c.(lastMessage := Some(LastMessage(m.message, m.userId, m.userName, m.timestamp)),
       updatedAt := m.timestamp)
  }

  /** The conversation update of `handleReceiveMessage`: the first
      conversation of the message's room is touched and moved to the front. */
  function BumpConversation(cs: seq<Conversation>, m: Message): (r: seq<Conversation>)
    ensures |r| == |cs|
    ensures FindConversation(cs, m.roomId).None? ==> r == cs
  {
    match FindConversation(cs, m.roomId)
    case None => cs
    case Some(i) => [Touch(cs[i], m)] + cs[..i] + cs[i + 1..]
  }

  /** The conversation of the message's room is at the front, touched by the
      message; every other conversation keeps its relative order (those
      before it move back by one, those after it stay where they were). */
  lemma BumpMovesToFront(cs: seq<Conversation>, m: Message)
    requires FindConversation(cs, m.roomId).Some?
    ensures var i, r := FindConversation(cs, m.roomId).value, BumpConversation(cs, m);
            && r[0] == Touch(cs[i], m)
            && (forall j :: 0 <= j < i ==> r[j + 1] == cs[j])
            && (forall j :: i < j < |cs| ==> r[j] == cs[j])
  {
    var i := FindConversation(cs, m.roomId).value;
    MoveToFrontShifts(cs, i, Touch(cs[i], m));
  }

  /** Moving element `i` to the front (replaced by `x`) shifts the elements
      before it back by one and leaves those after it in place. */
  lemma MoveToFrontShifts<T>(s: seq<T>, i: nat, x: T)
    requires i < |s|
    ensures var r := [x] + s[..i] + s[i + 1..];
            && |r| == |s| && r[0] == x
            && (forall j :: 0 <= j < i ==> r[j + 1] == s[j])
            && (forall j :: i < j < |s| ==> r[j] == s[j])
  {
    var r := [x] + s[..i] + s[i + 1..];
    forall j | 0 <= j < i ensures r[j + 1] == s[j] {
      assert r[j + 1] == s[..i][j];
    }
    forall j | i < j < |s| ensures r[j] == s[j] {
      assert r[j] == s[i + 1..][j - i - 1];
    }
  }

  /** A second delivery of the same message changes nothing more: the
      room's conversation is already at the front and already touched. */
  lemma BumpIdempotent(cs: seq<Conversation>, m: Message)
    ensures BumpConversation(BumpConversation(cs, m), m) == BumpConversation(cs, m)
  {
    match FindConversation(cs, m.roomId)
    case None =>
    case Some(i) =>
      var r := BumpConversation(cs, m);
      assert r[0] == Touch(cs[i], m);
      assert FindConversation(r, m.roomId) == Some(0);
      assert [Touch(r[0], m)] + r[..0] + r[1..] == r;
  }

  function Ids(cs: seq<Conversation>): (r: seq<string>)
    ensures |r| == |cs| && forall i :: 0 <= i < |cs| ==> r[i] == cs[i].id
  {
    if cs == [] then [] else [cs[0].id] + Ids(cs[1..])
  }

  /** Bumping only reorders: the list holds the same conversation ids, as
      many times each, as before. */
  lemma BumpPermutesIds(cs: seq<Conversation>, m: Message)
    ensures multiset(Ids(BumpConversation(cs, m))) == multiset(Ids(cs))
  {
    match FindConversation(cs, m.roomId)
    case None =>
    case Some(i) =>
      IdsAfterBump(cs, m);
      MoveToFrontPermutes(Ids(cs), i);
  }

  lemma MoveToFrontPermutes(s: seq<string>, i: nat)
    requires i < |s|
    ensures multiset([s[i]] + s[..i] + s[i + 1..]) == multiset(s)
  {
    assert s == s[..i] + [s[i]] + s[i + 1..];
  }

  lemma IdsAfterBump(cs: seq<Conversation>, m: Message)
    requires FindConversation(cs, m.roomId).Some?
    ensures var i, ids := FindConversation(cs, m.roomId).value, Ids(cs);
            Ids(BumpConversation(cs, m)) == [ids[i]] + ids[..i] + ids[i + 1..]
  {
    var i, ids := FindConversation(cs, m.roomId).value, Ids(cs);
    var t := Touch(cs[i], m);
    assert BumpConversation(cs, m) == [t] + cs[..i] + cs[i + 1..];
    IdsConcat([t] + cs[..i], cs[i + 1..]);
    IdsConcat([t], cs[..i]);
    IdsSlice(cs, 0, i);
    IdsSlice(cs, i + 1, |cs|);
    assert cs[0..i] == cs[..i] && ids[0..i] == ids[..i];
    assert cs[i + 1..|cs|] == cs[i + 1..] && ids[i + 1..|cs|] == ids[i + 1..];
  }

  lemma IdsConcat(a: seq<Conversation>, b: seq<Conversation>)
    ensures Ids(a + b) == Ids(a) + Ids(b)
  {
    assert forall k :: 0 <= k < |a| + |b| ==> Ids(a + b)[k] == (Ids(a) + Ids(b))[k];
  }

  lemma IdsSlice(cs: seq<Conversation>, lo: nat, hi: nat)
    requires lo <= hi <= |cs|
    ensures Ids(cs[lo..hi]) == Ids(cs)[lo..hi]
  {
    var a, b := Ids(cs[lo..hi]), Ids(cs)[lo..hi];
    forall k | 0 <= k < |a| ensures a[k] == b[k] {
      assert a[k] == cs[lo + k].id;
    }
  }

  // ---------------------------------------------------------------------
  // The session

  /** Closing a subscription: after `leave_room` and the removals, every
      handler registered has been removed. */
  lemma BalancedClose(log: seq<SocketCall>, o: ChatOptions)
    requires Balanced(log, true)
    ensures Balanced(log + Cleanup(o), false)
  {
    var c := Cleanup(o);
    SubscriptionCounts();
    forall e ensures Occurrences(c, On(e)) == 0 && Occurrences(c, Off(e)) == 1 {
      OccurrencesConcat([c[0]], Unsubscribe(), On(e));
      OccurrencesConcat([c[0]], Unsubscribe(), Off(e));
    }
    BalancedAppend(log, c, true, false);
  }

  /** Opening a subscription: one live handler per inbound event. */
  lemma BalancedOpen(log: seq<SocketCall>, o: ChatOptions)
    requires Balanced(log, false)
    ensures Balanced(log + ([JoinRoom(o)] + Subscribe()), true)
  {
    var c := [JoinRoom(o)] + Subscribe();
    SubscriptionCounts();
    forall e ensures Occurrences(c, On(e)) == 1 && Occurrences(c, Off(e)) == 0 {
      OccurrencesConcat([JoinRoom(o)], Subscribe(), On(e));
      OccurrencesConcat([JoinRoom(o)], Subscribe(), Off(e));
    }
    BalancedAppend(log, c, false, true);
  }

  /** One `useChat` instance, from mount to unmount. Its options may change
      from render to render; each change runs the effect's cleanup for the
      old options and the effect for the new ones, while the state, the
      timer ref and the shared socket are kept. `socketHeld` says whether
      the socket service already held a socket at mount. */
  class ChatSession {
    var options: Option<ChatOptions>
    /** Whether the shared socket service holds a socket. */
    var hasSocket: bool
    var messages: seq<Message>
    var isConnected: bool
    var typingUsers: seq<string>
    var conversations: seq<Conversation>
    /** Whether the eight handlers of the current effect are registered. */
    var subscribed: bool
    var typingTimer: TimerSlot
    /** The options captured by the callback of the pending withdrawal. */
    var typingFor: Option<ChatOptions>
    /** Whether the effect has ever run with options. */
    ghost var hadOptions: bool
    ghost var log: seq<SocketCall>

    ghost predicate Valid()
      reads this
    {
      && typingTimer.Valid()
      && NoDuplicates(typingUsers)
      && (subscribed ==> options.Some?)
      && (options.Some? ==> hadOptions)
      && (hadOptions ==> hasSocket)
      && (typingTimer.Pending() ==> typingFor.Some? && hadOptions)
      && typingTimer.Pending() == LastTypingSent(log)
      && Balanced(log, subscribed)
      && (!hadOptions ==> log == [] && messages == [] && !isConnected && typingUsers == [])
    }

    /** Mount: the initial state, then the effect for the first options. */
    constructor (options: Option<ChatOptions>, socketHeld: bool)
      ensures Valid()
      ensures this.options == options && hasSocket == (socketHeld || options.Some?)
      ensures messages == [] && !isConnected && typingUsers == [] && conversations == []
      ensures typingTimer == Idle && typingFor.None?
      ensures subscribed == options.Some?
      ensures log == (if options.Some? then [JoinRoom(options.value)] + Subscribe() else [])
    {
      this.options := options;
      hasSocket := socketHeld || options.Some?;
      messages := [];
      isConnected := false;
      typingUsers := [];
      conversations := [];
      subscribed := options.Some?;
      typingTimer := Idle;
      typingFor := None;
      hadOptions := options.Some?;
      if options.Some? {
        var extra := [JoinRoom(options.value)] + Subscribe();
        LastTypingSentSkips([], extra);
        BalancedOpen([], options.value);
        assert [] + extra == extra;
        log := extra;
      } else {
        log := [];
      }
    }

    /** The effect for options `o`: with options, connect (the socket service
        creates the shared socket if it has none), emit `join_room` and
        register the eight handlers; without options, nothing. */
    method RunEffect(o: Option<ChatOptions>)
      requires Valid() && !subscribed
      modifies this`options, this`hasSocket, this`subscribed, this`hadOptions, this`log
      ensures Valid() && options == o
      ensures subscribed == o.Some? && log == old(log) + Opening(o)
      ensures o.None? ==> hasSocket == old(hasSocket) && hadOptions == old(hadOptions)
      ensures o.Some? ==> hasSocket
    {
      options := o;
      if o.Some? {
        var extra := [JoinRoom(o.value)] + Subscribe();
        LastTypingSentSkips(log, extra);
        BalancedOpen(log, o.value);
        hasSocket := true;
        subscribed := true;
        hadOptions := true;
        log := log + extra;
      }
    }

    /** A render with different options: the cleanup of the running effect,
        then the effect for `o`. The messages, the connection flag, the
        typing list, the conversations and the timer ref are kept. Equal
        options change nothing. */
    method ChangeOptions(o: Option<ChatOptions>)
      requires Valid()
      modifies this`options, this`hasSocket, this`subscribed, this`hadOptions, this`log
      ensures Valid() && options == o
      ensures messages == old(messages) && isConnected == old(isConnected) && typingUsers == old(typingUsers)
      ensures conversations == old(conversations) && typingTimer == old(typingTimer) && typingFor == old(typingFor)
      ensures o == old(options) ==> subscribed == old(subscribed) && log == old(log)
      ensures o != old(options) ==>
                subscribed == o.Some? && log == old(log) + Closing(old(subscribed), old(options)) + Opening(o)
    {
      if o != options {
        Close();
        RunEffect(o);
      }
    }

    /** `setConversations`, used by the page to load the list. */
    method SetConversations(cs: seq<Conversation>)
      requires Valid()
      modifies this`conversations
      ensures Valid() && conversations == cs
    {
      conversations := cs;
    }

    /** `room_joined`: connected, and the history is requested. */
    method RoomJoined()
      requires Valid()
      modifies this`isConnected, this`log
      ensures Valid()
      ensures old(subscribed) ==>
                isConnected && log == old(log) + [Emit("get_history", GetHistoryPayload(options.value.roomId, HistoryLimit))]
      ensures !old(subscribed) ==> isConnected == old(isConnected) && log == old(log)
    {
      if subscribed {
        var c := Emit("get_history", GetHistoryPayload(options.value.roomId, HistoryLimit));
        isConnected := true;
        LastTypingSentSkips(log, [c]);
        BalancedEmit(log, c, subscribed);
        log := log + [c];
      }
    }

    /** `chat_history`: the messages are replaced by the received ones
        (`data.messages || []`), whatever had arrived before. */
    method ChatHistory(received: Option<seq<Message>>)
      requires Valid()
      modifies this`messages
      ensures Valid()
      ensures old(subscribed) ==> messages == (if received.Some? then received.value else [])
      ensures !old(subscribed) ==> messages == old(messages)
    {
      if subscribed {
        messages := if received.Some? then received.value else [];
      }
    }

    /** `receive_message`: the message is appended and its conversation is
        bumped to the front. */
    method ReceiveMessage(m: Message)
      requires Valid()
      modifies this`messages, this`conversations
      ensures Valid()
      ensures old(subscribed) ==>
                messages == AppendMessage(old(messages), m)
                && conversations == BumpConversation(old(conversations), m)
      ensures !old(subscribed) ==> messages == old(messages) && conversations == old(conversations)
    {
      if subscribed {
        messages := AppendMessage(messages, m);
        conversations := BumpConversation(conversations, m);
      }
    }

    /** `user_typing`: another user's name is added or removed; the local
        user's own echo is ignored. */
    method UserTyping(userName: string, isTyping: bool)
      requires Valid()
      modifies this`typingUsers
      ensures Valid()
      ensures old(subscribed) ==> typingUsers == ApplyTyping(old(typingUsers), options.value.userName, userName, isTyping)
      ensures !old(subscribed) ==> typingUsers == old(typingUsers)
    {
      if subscribed {
        typingUsers := ApplyTyping(typingUsers, options.value.userName, userName, isTyping);
      }
    }

    /** `connect`: connected, without joining the room again. */
    method Connect()
      requires Valid()
      modifies this`isConnected
      ensures Valid()
      ensures isConnected == (old(subscribed) || old(isConnected))
    {
      if subscribed {
        isConnected := true;
      }
    }

    /** `disconnect`. */
    method Disconnect()
      requires Valid()
      modifies this`isConnected
      ensures Valid()
      ensures isConnected == (!old(subscribed) && old(isConnected))
    {
      if subscribed {
        isConnected := false;
      }
    }

    /** The effect's cleanup, run on unmount and before the effect runs for
        new options: emit `leave_room`, then remove the eight handlers. The
        typing timer is left as it is. Afterwards every handler ever
        registered has been removed. */
    method Close()
      requires Valid()
      modifies this`subscribed, this`log
      ensures Valid() && !subscribed
      ensures forall e :: Occurrences(log, On(e)) == Occurrences(log, Off(e))
      ensures log == old(log) + Closing(old(subscribed), options)
    {
      if subscribed {
        var extra := Cleanup(options.value);
        LastTypingSentSkips(log, extra);
        BalancedClose(log, options.value);
        log := log + extra;
        subscribed := false;
      }
    }

    /** `sendMessage`: emits the trimmed text when there are options, a socket
        and a non-blank text. The message list is not touched: the message
        shows up when the server echoes it back. */
    method SendMessage(text: string)
      requires Valid()
      modifies this`log
      ensures Valid()
      ensures messages == old(messages)
      ensures options.Some? && hasSocket && Trim(text) != "" ==>
                var o := options.value;
                log == old(log) + [Emit("send_message", SendMessagePayload(o.roomId, o.userId, o.userName, o.userType, Trim(text)))]
      ensures !(options.Some? && hasSocket && Trim(text) != "") ==> log == old(log)
    {
      if options.Some? && hasSocket && Trim(text) != "" {
        var o := options.value;
        var c := Emit("send_message", SendMessagePayload(o.roomId, o.userId, o.userName, o.userType, Trim(text)));
        LastTypingSentSkips(log, [c]);
        BalancedEmit(log, c, subscribed);
        log := log + [c];
      }
    }

    /** `sendTypingStatus`: emits the status, cancels the pending withdrawal
        (whichever options armed it), and for "typing" arms a new one that
        captures the current options. */
    method SendTypingStatus(isTyping: bool)
      requires Valid()
      modifies this`log, this`typingTimer, this`typingFor
      ensures Valid()
      ensures options.None? ==> log == old(log) && typingTimer == old(typingTimer) && typingFor == old(typingFor)
      ensures options.Some? ==>
                && log == old(log) + [TypingCall(options.value, isTyping)]
                && typingTimer == (if isTyping then old(typingTimer).Clear().Arm() else old(typingTimer).Clear())
                && typingTimer.armed == (if isTyping then {old(typingTimer).nextId} else {})
                && (old(typingTimer).current.Some? ==> old(typingTimer).current.value !in typingTimer.armed)
                && typingFor == (if isTyping then options else old(typingFor))
    {
      if options.None? {
        return;
      }
      if hasSocket {
        BalancedEmit(log, TypingCall(options.value, isTyping), subscribed);
        log := log + [TypingCall(options.value, isTyping)];
      }
      typingTimer := typingTimer.Clear();
      if isTyping {
        typingTimer := typingTimer.Arm();
        typingFor := options;
      }
    }

    /** The withdrawal timer fires: "not typing" is emitted for the options
        its callback captured. */
    method FireTypingTimer()
      requires Valid()
      modifies this`log, this`typingTimer
      ensures Valid() && !typingTimer.Pending()
      ensures old(typingTimer.Pending()) ==>
                log == old(log) + [TypingCall(typingFor.value, false)] && typingTimer == old(typingTimer).Fire()
      ensures !old(typingTimer.Pending()) ==> log == old(log) && typingTimer == old(typingTimer)
    {
      if typingTimer.Pending() {
        typingTimer := typingTimer.Fire();
        if hasSocket {
          BalancedEmit(log, TypingCall(typingFor.value, false), subscribed);
          log := log + [TypingCall(typingFor.value, false)];
        }
      }
    }
  }

  /** A typing signal left pending when the options change still fires
      afterwards, and emits "not typing" for the room it was sent to, not
      for the new one. */
  method StaleTimerAfterSwitch(s: ChatSession, b: ChatOptions)
    requires s.Valid() && s.typingTimer.Pending() && s.typingFor.Some? && s.typingFor != Some(b)
    modifies s
  {
    var a := s.typingFor.value;
    s.ChangeOptions(Some(b));
    var before := s.log;
    s.FireTypingTimer();
    assert s.log == before + [TypingCall(a, false)] && a != b;
  }

  /** A "typing" status sent in the new room cancels the old room's pending
      withdrawal through the shared ref: when the timer fires, "not typing"
      goes to the new room only, and the old room never receives one. */
  method NewRoomCancelsOldWithdrawal(s: ChatSession, b: ChatOptions)
    requires s.Valid() && s.typingTimer.Pending()
    modifies s
  {
    s.ChangeOptions(Some(b));
    s.SendTypingStatus(true);
    var before := s.log;
    s.FireTypingTimer();
    assert s.log == before + [TypingCall(b, false)];
    assert !s.typingTimer.Pending();
  }

  /** Switching rooms keeps the connection flag, the messages and the
      typing list of the old room. */
  method RoomSwitchKeepsState(a: ChatOptions, b: ChatOptions, m: Message, name: string)
    requires a != b && name != a.userName
  {
    var s := new ChatSession(Some(a), false);
    s.RoomJoined();
    s.ReceiveMessage(m);
    s.UserTyping(name, true);
    s.ChangeOptions(Some(b));
    assert s.isConnected && s.messages == [m] && s.typingUsers == [name];
  }

  /** History of three messages, then one live message for the room. */
  method HistoryThenLive(o: ChatOptions, h: seq<Message>, m: Message)
    requires |h| == 3
  {
    var s := new ChatSession(Some(o), false);
    s.RoomJoined();
    s.ChatHistory(Some(h));
    s.ReceiveMessage(m);
    assert |s.messages| == 4 && s.messages[3] == m;
  }
}
