/** The bot-side socket client: a bounded queue while disconnected, flushed on
    connect (packages/runtime-sdk/src/socket-client.ts). Socket events reach the
    handlers in any order the network allows; the history records what was sent
    and what was written. */
module SocketClient {
  import opened Wrappers
  import opened LocalIpc

  type SocketId = nat

  datatype Packet = Packet(socket: SocketId, text: Text)

  /** The client's fields (socket, connected, queue, closed, reconnectAttempt and
      whether the reconnect timer is set), the sockets that exist, and the history:
      everything sent, everything written, and what was sent since the connection
      was last lost. */
  datatype Link = Link(
    socket: Option<SocketId>, connected: bool, queue: seq<Text>, closed: bool, attempts: nat, timer: bool,
    live: set<SocketId>, connecting: set<SocketId>, nextSocket: SocketId,
    sends: seq<Text>, written: seq<Packet>, offline: seq<Text>)

  datatype Event = Connect | TimerFires | Connected(id: SocketId) | Closed(id: SocketId) | Send(text: Text) | Close

  const INITIAL: Link := Link(None, false, [], false, 0, false, {}, {}, 0, [], [], [])

  function LastN<T>(s: seq<T>, n: nat): seq<T> { if |s| <= n then s else s[|s| - n..] }

  function Packets(socket: SocketId, texts: seq<Text>): (r: seq<Packet>)
    ensures |r| == |texts| && forall i :: 0 <= i < |r| ==> r[i] == Packet(socket, texts[i])
  {
    seq(|texts|, i requires 0 <= i < |texts| => Packet(socket, texts[i]))
  }

  // -------------------------------------------------------------- handlers

  function AttemptConnect(l: Link): Link {
    if l.closed then l
    else l.(socket := Some(l.nextSocket), live := l.live + {l.nextSocket},
            connecting := l.connecting + {l.nextSocket}, nextSocket := l.nextSocket + 1)
  }

  function FlushQueue(l: Link): Link {
    if l.socket.None? then l
    else l.(written := l.written + Packets(l.socket.value, l.queue), queue := [], offline := [])
  }

  function OnConnected(l: Link, id: SocketId): Link {
    FlushQueue(l.(connected := true, attempts := 0, connecting := l.connecting - {id}))
  }

  function OnClosed(l: Link, id: SocketId): Link {
    var gone := l.(connected := false, socket := None, live := l.live - {id}, connecting := l.connecting - {id});
    if l.closed then gone else gone.(attempts := l.attempts + 1, timer := true)
  }

  function OnSend(l: Link, text: Text, maxQueueSize: nat): Link {
    var sent := l.(sends := l.sends + [text]);
    if l.connected && l.socket.Some? then
      sent.(written := l.written + [Packet(l.socket.value, text)])
    else
      sent.(queue := LastN(l.queue + [text], maxQueueSize), offline := l.offline + [text])
  }

  /** An event can occur: the timer is set, or the socket exists (and has not
      connected before). */
  predicate Possible(l: Link, e: Event) {
    match e
    case TimerFires => l.timer
    case Connected(id) => id in l.live && id in l.connecting
    case Closed(id) => id in l.live
    case _ => true
  }

  function Apply(l: Link, e: Event, maxQueueSize: nat): Link {
    match e
    case Connect => AttemptConnect(l.(closed := false))
    case TimerFires => AttemptConnect(l.(timer := false))
    case Connected(id) => OnConnected(l, id)
    case Closed(id) => OnClosed(l, id)
    case Send(text) => OnSend(l, text, maxQueueSize)
    case Close => l.(closed := true, timer := false)
  }

  class AgentSocketClient {
    const maxQueueSize: nat
    var socket: Option<SocketId>
    var connected: bool
    var queue: seq<Text>
    var closed: bool
    var reconnectAttempt: nat
    var timer: bool
    ghost var live: set<SocketId>
    ghost var connecting: set<SocketId>
    var nextSocket: SocketId
    ghost var sends: seq<Text>
    ghost var written: seq<Packet>
    ghost var offline: seq<Text>

    ghost function View(): Link
      reads this
    {
      Link(socket, connected, queue, closed, reconnectAttempt, timer, live, connecting, nextSocket, sends, written, offline)
    }

    constructor (maxQueueSize: nat)
      ensures View() == INITIAL && this.maxQueueSize == maxQueueSize
    {
      this.maxQueueSize := maxQueueSize;
      socket, connected, queue, closed, reconnectAttempt, timer := None, false, [], false, 0, false;
      live, connecting, nextSocket, sends, written, offline := {}, {}, 0, [], [], [];
    }

    method Attempt()
      modifies this
      ensures View() == AttemptConnect(old(View()))
      ensures socket == (if closed then old(socket) else Some(old(nextSocket)))
      ensures nextSocket == old(nextSocket) + if closed then 0 else 1
      ensures connected == old(connected) && queue == old(queue) && closed == old(closed) && timer == old(timer)
    {
      if closed {
        return;
      }
      socket := Some(nextSocket);
      live, connecting := live + {nextSocket}, connecting + {nextSocket};
      nextSocket := nextSocket + 1;
    }

    method ConnectClient()
      modifies this
      ensures View() == Apply(old(View()), Connect, maxQueueSize)
      ensures !closed && socket == Some(old(nextSocket)) && nextSocket == old(nextSocket) + 1
      ensures connected == old(connected) && queue == old(queue) && timer == old(timer)
    {
      closed := false;
      Attempt();
    }

    method TimerHandler()
      modifies this
      ensures View() == Apply(old(View()), TimerFires, maxQueueSize)
      ensures !timer && socket == (if closed then old(socket) else Some(old(nextSocket)))
    {
      timer := false;
      Attempt();
    }

    method ConnectHandler(id: SocketId)
      modifies this
      ensures View() == Apply(old(View()), Connected(id), maxQueueSize)
      ensures connected && reconnectAttempt == 0 && (socket.Some? ==> queue == [])
    {
      connected := true;
      reconnectAttempt := 0;
      connecting := connecting - {id};
      Flush();
    }

    method Flush()
      modifies this
      ensures View() == FlushQueue(old(View()))
      ensures if socket.None? then written == old(written) && queue == old(queue)
              else written == old(written) + Packets(socket.value, old(queue)) && queue == []
    {
      if socket.None? {
        return;
      }
      for i := 0 to |queue|
        invariant written == old(written) + Packets(socket.value, queue[..i])
        invariant View() == old(View()).(written := written)
      {
        assert Packets(socket.value, queue[..i + 1]) == Packets(socket.value, queue[..i]) + [Packet(socket.value, queue[i])];
        written := written + [Packet(socket.value, queue[i])];
      }
      assert queue[..|queue|] == queue;
      queue := [];
      offline := [];
    }

    method CloseHandler(id: SocketId)
      modifies this
      ensures View() == Apply(old(View()), Closed(id), maxQueueSize)
      ensures !connected && socket == None && queue == old(queue)
      ensures if closed then timer == old(timer) && reconnectAttempt == old(reconnectAttempt)
              else timer && reconnectAttempt == old(reconnectAttempt) + 1
    {
      connected := false;
      socket := None;
      live, connecting := live - {id}, connecting - {id};
      if closed {
        return;
      }
      reconnectAttempt := reconnectAttempt + 1;
      timer := true;
    }

    /** The push, and the loop that shifts out the oldest. */
    method PushBounded(text: Text)
      modifies this`queue
      ensures queue == LastN(old(queue) + [text], maxQueueSize)
      ensures |queue| == if |old(queue)| < maxQueueSize then |old(queue)| + 1 else maxQueueSize
      ensures queue == (old(queue) + [text])[|old(queue)| + 1 - |queue|..]
    {
      queue := queue + [text];
      ghost var pushed := queue;
      while |queue| > maxQueueSize
        invariant |queue| <= |pushed| && queue == pushed[|pushed| - |queue|..]
        invariant if |pushed| <= maxQueueSize then queue == pushed else |queue| >= maxQueueSize
      {
        queue := queue[1..];
      }
    }

    method SendMessage(text: Text)
      modifies this
      ensures View() == Apply(old(View()), Send(text), maxQueueSize)
      ensures sends == old(sends) + [text]
      ensures if connected && socket.Some? then written == old(written) + [Packet(socket.value, text)] && queue == old(queue)
              else written == old(written) && queue == (old(queue) + [text])[|old(queue)| + 1 - |queue|..]
    {
      hide LastN, Packets, AttemptConnect, FlushQueue, OnConnected, OnClosed;
      sends := sends + [text];
      if connected && socket.Some? {
        written := written + [Packet(socket.value, text)];
        return;
      }
      offline := offline + [text];
      PushBounded(text);
    }

    method CloseClient()
      modifies this
      ensures View() == Apply(old(View()), Close, maxQueueSize)
      ensures closed && !timer && socket == old(socket) && connected == old(connected) && queue == old(queue)
    {
      closed := true;
      timer := false;
    }
  }

  // ------------------------------------------------------------ subsequences

  ghost predicate Subsequence<T>(x: seq<T>, y: seq<T>) {
    if x == [] then true
    else if y == [] then false
    else
      || Subsequence(x, y[..|y| - 1])
      || (x[|x| - 1] == y[|y| - 1] && Subsequence(x[..|x| - 1], y[..|y| - 1]))
  }

  lemma {:induction false} SubsequenceConcat<T>(a: seq<T>, b: seq<T>, c: seq<T>, d: seq<T>)
    requires Subsequence(a, b) && Subsequence(c, d)
    ensures Subsequence(a + c, b + d)
    decreases |d|
  {
    if d == [] {
      assert b + d == b && a + c == a;
    } else {
      var d' := d[..|d| - 1];
      assert (b + d)[..|b + d| - 1] == b + d';
      if Subsequence(c, d') {
        SubsequenceConcat(a, b, c, d');
      } else {
        SubsequenceConcat(a, b, c[..|c| - 1], d');
        assert (a + c)[..|a + c| - 1] == a + c[..|c| - 1];
      }
    }
  }

  lemma {:induction false} SubsequenceSelf<T>(a: seq<T>)
    ensures Subsequence(a, a)
  {
    if a != [] {
      SubsequenceSelf(a[..|a| - 1]);
    }
  }

  lemma SuffixIsSubsequence<T>(a: seq<T>, n: nat)
    ensures Subsequence(LastN(a, n), a)
  {
    SubsequenceSelf(LastN(a, n));
    var dropped := a[..|a| - |LastN(a, n)|];
    assert dropped + LastN(a, n) == a && [] + LastN(a, n) == LastN(a, n);
    SubsequenceConcat([], dropped, LastN(a, n), LastN(a, n));
  }

  // ------------------------------------------------------------ disciplined use

  function Texts(packets: seq<Packet>): (r: seq<Text>)
    ensures |r| == |packets| && forall i :: 0 <= i < |r| ==> r[i] == packets[i].text
  {
    seq(|packets|, i requires 0 <= i < |packets| => packets[i].text)
  }

  /** connect() is called only when no socket exists and no reconnect is scheduled. */
  predicate Disciplined(l: Link, e: Event) {
    e.Connect? ==> l.live == {} && !l.timer
  }

  ghost predicate Orderly(l: Link, maxQueueSize: nat) {
    && l.live == (if l.socket.None? then {} else {l.socket.value})
    && l.connecting == (if l.socket.None? || l.connected then {} else {l.socket.value})
    && (l.connected ==> l.socket.Some? && l.offline == [])
    && (l.timer ==> l.socket.None? && !l.closed)
    && (!l.closed && l.nextSocket > 0 ==> l.socket.Some? || l.timer)
    && (forall id :: id in l.live ==> id < l.nextSocket)
    && l.queue == LastN(l.offline, maxQueueSize)
    && |l.offline| <= |l.sends| && l.sends[|l.sends| - |l.offline|..] == l.offline
    && Subsequence(Texts(l.written), l.sends[..|l.sends| - |l.offline|])
  }

  lemma FlushKeepsOrder(l: Link, id: SocketId, maxQueueSize: nat)
    requires Orderly(l, maxQueueSize) && Possible(l, Connected(id))
    ensures Orderly(OnConnected(l, id), maxQueueSize)
  {
    hide Subsequence, LastN;
    var before := l.sends[..|l.sends| - |l.offline|];
    var m := OnConnected(l, id);
    assert before + l.offline == l.sends;
    SuffixIsSubsequence(l.offline, maxQueueSize);
    SubsequenceConcat(Texts(l.written), before, l.queue, l.offline);
    assert Texts(m.written) == Texts(l.written) + l.queue;
    assert m.sends[..|m.sends|] == m.sends && m.sends[|m.sends|..] == [];
    assert LastN(m.offline, maxQueueSize) == [] by { LastNEmpty<Text>(maxQueueSize); }
  }

  lemma LastNEmpty<T>(n: nat)
    ensures LastN<T>([], n) == []
  {}

  lemma LastNSnoc<T>(s: seq<T>, x: T, n: nat)
    ensures LastN(LastN(s, n) + [x], n) == LastN(s + [x], n)
  {}

  lemma WriteKeepsOrder(l: Link, text: Text, maxQueueSize: nat)
    requires Orderly(l, maxQueueSize) && l.connected
    ensures Orderly(OnSend(l, text, maxQueueSize), maxQueueSize)
  {
    hide Subsequence, LastN;
    var m := OnSend(l, text, maxQueueSize);
    assert l.sends[..|l.sends| - |l.offline|] == l.sends;
    SubsequenceSelf([text]);
    SubsequenceConcat(Texts(l.written), l.sends, [text], [text]);
    assert Texts(m.written) == Texts(l.written) + [text];
    assert m.sends[..|m.sends|] == m.sends;
  }

  lemma QueueKeepsOrder(l: Link, text: Text, maxQueueSize: nat)
    requires Orderly(l, maxQueueSize) && !l.connected
    ensures Orderly(OnSend(l, text, maxQueueSize), maxQueueSize)
  {
    hide Subsequence, LastN, Texts;
    var m := OnSend(l, text, maxQueueSize);
    LastNSnoc(l.offline, text, maxQueueSize);
    assert m.sends[..|m.sends| - |m.offline|] == l.sends[..|l.sends| - |l.offline|];
    assert m.sends[|m.sends| - |m.offline|..] == m.offline;
  }

  lemma SendKeepsOrder(l: Link, text: Text, maxQueueSize: nat)
    requires Orderly(l, maxQueueSize)
    ensures Orderly(OnSend(l, text, maxQueueSize), maxQueueSize)
  {
    hide Orderly, OnSend;
    if l.connected {
      WriteKeepsOrder(l, text, maxQueueSize);
    } else {
      QueueKeepsOrder(l, text, maxQueueSize);
    }
  }

  lemma StepKeepsOrder(l: Link, e: Event, maxQueueSize: nat)
    requires Orderly(l, maxQueueSize) && Possible(l, e) && Disciplined(l, e)
    ensures Orderly(Apply(l, e, maxQueueSize), maxQueueSize)
  {
    hide Subsequence, LastN, OnConnected, OnSend;
    match e
    case Connected(id) => FlushKeepsOrder(l, id, maxQueueSize);
    case Send(text) => SendKeepsOrder(l, text, maxQueueSize);
    case _ =>
  }

  /** A run the network allows. */
  predicate Runs(l: Link, events: seq<Event>, maxQueueSize: nat)
    decreases |events|
  {
    events == [] || (Possible(l, events[0]) && Runs(Apply(l, events[0], maxQueueSize), events[1..], maxQueueSize))
  }

  predicate DisciplinedRun(l: Link, events: seq<Event>, maxQueueSize: nat)
    decreases |events|
  {
    events == [] || (Disciplined(l, events[0]) && DisciplinedRun(Apply(l, events[0], maxQueueSize), events[1..], maxQueueSize))
  }

  function End(l: Link, events: seq<Event>, maxQueueSize: nat): Link
    decreases |events|
  {
    if events == [] then l else End(Apply(l, events[0], maxQueueSize), events[1..], maxQueueSize)
  }

  lemma {:induction false} RunsAreOrderly(l: Link, events: seq<Event>, maxQueueSize: nat)
    requires Orderly(l, maxQueueSize) && Runs(l, events, maxQueueSize) && DisciplinedRun(l, events, maxQueueSize)
    ensures Orderly(End(l, events, maxQueueSize), maxQueueSize)
    decreases |events|
  {
    hide Orderly, Apply, Possible, Disciplined;
    if events != [] {
      StepKeepsOrder(l, events[0], maxQueueSize);
      RunsAreOrderly(Apply(l, events[0], maxQueueSize), events[1..], maxQueueSize);
    }
  }

  /** What was written, followed by the queue, is an order-preserving subsequence of
      what was sent. */
  ghost predicate Ordered(l: Link) { Subsequence(Texts(l.written) + l.queue, l.sends) }

  lemma OrderlyIsOrdered(l: Link, maxQueueSize: nat)
    requires Orderly(l, maxQueueSize)
    ensures Ordered(l)
  {
    hide Subsequence;
    SuffixIsSubsequence(l.offline, maxQueueSize);
    var before := l.sends[..|l.sends| - |l.offline|];
    SubsequenceConcat(Texts(l.written), before, l.queue, l.offline);
    assert before + l.offline == l.sends;
  }

  /** After any disciplined run the messages are in order; while connected the queue
      is empty; otherwise it is the last messages sent since the connection was lost. */
  lemma DeliveryIsOrdered(events: seq<Event>, maxQueueSize: nat)
    requires Runs(INITIAL, events, maxQueueSize) && DisciplinedRun(INITIAL, events, maxQueueSize)
    ensures var l := End(INITIAL, events, maxQueueSize);
            && Ordered(l)
            && (l.connected ==> l.queue == [])
            && |l.queue| == (if |l.offline| <= maxQueueSize then |l.offline| else maxQueueSize)
            && l.queue == l.offline[|l.offline| - |l.queue|..]
            && |l.offline| <= |l.sends| && l.offline == l.sends[|l.sends| - |l.offline|..]
  {
    hide Ordered;
    RunsAreOrderly(INITIAL, events, maxQueueSize);
    OrderlyIsOrdered(End(INITIAL, events, maxQueueSize), maxQueueSize);
  }

  /** A closed client never reconnects by itself; an open one that was ever connected
      has a socket or a reconnect scheduled. */
  lemma KeepsTryingUntilClosed(events: seq<Event>, maxQueueSize: nat)
    requires Runs(INITIAL, events, maxQueueSize) && DisciplinedRun(INITIAL, events, maxQueueSize)
    ensures var l := End(INITIAL, events, maxQueueSize);
            && (l.closed ==> !l.timer)
            && (!l.closed && l.nextSocket > 0 ==> l.socket.Some? || l.timer)
  {
    RunsAreOrderly(INITIAL, events, maxQueueSize);
  }

  // ------------------------------------------------- the discipline is necessary

  lemma {:induction false} SubsequenceMembers<T>(x: seq<T>, y: seq<T>, b: T)
    requires Subsequence(x, y) && b !in y
    ensures b !in x
    decreases |y|
  {
    if x != [] {
      if Subsequence(x, y[..|y| - 1]) {
        SubsequenceMembers(x, y[..|y| - 1], b);
      } else {
        SubsequenceMembers(x[..|x| - 1], y[..|y| - 1], b);
      }
    }
  }

  /** A message sent last but not written last is out of order. */
  lemma OvertakenIsNoSubsequence(x: seq<Text>, before: seq<Text>, a: Text, b: Text)
    requires b !in before && a != b && b in x && x[|x| - 1] == a
    ensures !Subsequence(x, before + [a, b])
  {
    var y := before + [a, b];
    assert y[..|y| - 1] == before + [a];
    if Subsequence(x, y) {
      SubsequenceMembers(x, before + [a], b);
    }
  }

  lemma Unroll(l: Link, e: Event, rest: seq<Event>, maxQueueSize: nat)
    requires Possible(l, e) && Disciplined(l, e)
    requires Runs(Apply(l, e, maxQueueSize), rest, maxQueueSize) && DisciplinedRun(Apply(l, e, maxQueueSize), rest, maxQueueSize)
    ensures Runs(l, [e] + rest, maxQueueSize) && DisciplinedRun(l, [e] + rest, maxQueueSize)
    ensures End(l, [e] + rest, maxQueueSize) == End(Apply(l, e, maxQueueSize), rest, maxQueueSize)
  {
    hide Possible, Disciplined, Apply;
    assert ([e] + rest)[1..] == rest;
  }

  /** Two sockets exist, and the client's is the one still connecting. */
  predicate TwoSockets(l: Link, oldSocket: SocketId, newSocket: SocketId) {
    && l.socket == Some(newSocket) && oldSocket != newSocket && {oldSocket, newSocket} <= l.live && newSocket in l.connecting && !l.closed
    && forall id :: id in l.live ==> id < l.nextSocket
  }

  function Overtaking(l: Link, oldSocket: SocketId, newSocket: SocketId, a: Text, b: Text): seq<Event> {
    [Closed(oldSocket)] + ([Send(a)] + ([Connected(newSocket)] + ([TimerFires] + ([Send(b)] + ([Connected(l.nextSocket)] + [])))))
  }

  /** The old socket's close event makes the client forget the new one; a message is
      queued, the new socket connects and flushes nothing, the timer brings a third
      socket, on which the next message is written before the queue. */
  lemma Overtakes(l: Link, oldSocket: SocketId, newSocket: SocketId, a: Text, b: Text, maxQueueSize: nat)
    requires TwoSockets(l, oldSocket, newSocket)
    ensures var events := Overtaking(l, oldSocket, newSocket, a, b);
            && Runs(l, events, maxQueueSize) && DisciplinedRun(l, events, maxQueueSize)
            && var m := End(l, events, maxQueueSize);
               && m.sends == l.sends + [a, b] && m.queue == []
               && Texts(m.written) == Texts(l.written) + [b] + LastN(l.queue + [a], maxQueueSize)
  {
    hide Runs, DisciplinedRun, End, LastN;
    var l1 := Apply(l, Closed(oldSocket), maxQueueSize);
    var l2 := Apply(l1, Send(a), maxQueueSize);
    var l3 := Apply(l2, Connected(newSocket), maxQueueSize);
    var l4 := Apply(l3, TimerFires, maxQueueSize);
    var l5 := Apply(l4, Send(b), maxQueueSize);
    var l6 := Apply(l5, Connected(l.nextSocket), maxQueueSize);
    EndsHere(l6, maxQueueSize);
    Unroll(l5, Connected(l.nextSocket), [], maxQueueSize);
    Unroll(l4, Send(b), [Connected(l.nextSocket)] + [], maxQueueSize);
    Unroll(l3, TimerFires, [Send(b)] + ([Connected(l.nextSocket)] + []), maxQueueSize);
    Unroll(l2, Connected(newSocket), [TimerFires] + ([Send(b)] + ([Connected(l.nextSocket)] + [])), maxQueueSize);
    var rest := [Connected(newSocket)] + ([TimerFires] + ([Send(b)] + ([Connected(l.nextSocket)] + [])));
    Unroll(l1, Send(a), rest, maxQueueSize);
    Unroll(l, Closed(oldSocket), [Send(a)] + rest, maxQueueSize);
  }

  lemma EndsHere(l: Link, maxQueueSize: nat)
    ensures Runs(l, [], maxQueueSize) && DisciplinedRun(l, [], maxQueueSize) && End(l, [], maxQueueSize) == l
  {}

  lemma OvertakingIsUnordered(l: Link, m: Link, a: Text, b: Text, maxQueueSize: nat)
    requires m.sends == l.sends + [a, b] && m.queue == [] && maxQueueSize > 0 && a != b && b !in l.sends
    requires Texts(m.written) == Texts(l.written) + [b] + LastN(l.queue + [a], maxQueueSize)
    ensures !Ordered(m)
  {
    hide Subsequence;
    var x := Texts(m.written);
    assert x == x + m.queue;
    assert x[|Texts(l.written)|] == b;
    OvertakenIsNoSubsequence(x, l.sends, a, b);
  }

  /** connect() called too early: from every orderly state in which a socket exists or
      a reconnect is scheduled, and without any further connect(), two more messages
      can be delivered out of order. */
  lemma ConnectingTooEarlyReorders(l: Link, a: Text, b: Text, maxQueueSize: nat) returns (events: seq<Event>)
    requires Orderly(l, maxQueueSize) && !Disciplined(l, Connect)
    requires maxQueueSize > 0 && a != b && b !in l.sends
    ensures var m := Apply(l, Connect, maxQueueSize);
            && Runs(m, events, maxQueueSize) && DisciplinedRun(m, events, maxQueueSize)
            && !Ordered(End(m, events, maxQueueSize))
  {
    hide Runs, DisciplinedRun, End, LastN, Subsequence, Ordered;
    var m := Apply(l, Connect, maxQueueSize);
    if l.live != {} {
      var oldSocket := l.socket.value;
      Overtakes(m, oldSocket, l.nextSocket, a, b, maxQueueSize);
      events := Overtaking(m, oldSocket, l.nextSocket, a, b);
      OvertakingIsUnordered(m, End(m, events, maxQueueSize), a, b, maxQueueSize);
    } else {
      var n := Apply(m, TimerFires, maxQueueSize);
      Overtakes(n, l.nextSocket, m.nextSocket, a, b, maxQueueSize);
      var rest := Overtaking(n, l.nextSocket, m.nextSocket, a, b);
      OvertakingIsUnordered(n, End(n, rest, maxQueueSize), a, b, maxQueueSize);
      Unroll(m, TimerFires, rest, maxQueueSize);
      events := [TimerFires] + rest;
    }
  }

  /** Whatever happens after connect(), if later calls keep the discipline, the
      messages stay in order. */
  ghost predicate SafeToConnect(l: Link, maxQueueSize: nat) {
    var m := Apply(l, Connect, maxQueueSize);
    forall events :: Runs(m, events, maxQueueSize) && DisciplinedRun(m, events, maxQueueSize) ==>
      Ordered(End(m, events, maxQueueSize))
  }

  /** connect() keeps the order of messages exactly when no socket exists and no
      reconnect is scheduled. (A queue of size zero holds nothing to overtake.) */
  lemma SafeToConnectIffDisciplined(l: Link, maxQueueSize: nat)
    requires Orderly(l, maxQueueSize) && maxQueueSize > 0
    ensures SafeToConnect(l, maxQueueSize) <==> Disciplined(l, Connect)
  {
    hide Runs, DisciplinedRun, End, Ordered, Orderly, Apply;
    var m := Apply(l, Connect, maxQueueSize);
    if Disciplined(l, Connect) {
      forall events | Runs(m, events, maxQueueSize) && DisciplinedRun(m, events, maxQueueSize)
        ensures Ordered(End(m, events, maxQueueSize))
      {
        StepKeepsOrder(l, Connect, maxQueueSize);
        RunsAreOrderly(m, events, maxQueueSize);
        OrderlyIsOrdered(End(m, events, maxQueueSize), maxQueueSize);
      }
    } else {
      var b := FreshText(l.sends);
      var a: Text := b + "x";
      var events := ConnectingTooEarlyReorders(l, a, b, maxQueueSize);
    }
  }

  lemma {:induction false} FreshText(used: seq<Text>) returns (b: Text)
    ensures b !in used
    ensures forall i :: 0 <= i < |used| ==> |used[i]| < |b|
  {
    if used == [] {
      b := "x";
    } else {
      var last := used[|used| - 1];
      b := FreshText(used[..|used| - 1]);
      b := b + last + "x";
    }
  }

  // --------------------------------------------------------- from bot to agent

  /** What was written on one socket. */
  function WrittenOn(written: seq<Packet>, id: SocketId): seq<Text> {
    if written == [] then []
    else
      var front, last := WrittenOn(written[..|written| - 1], id), written[|written| - 1];
      if last.socket == id then front + [last.text] else front
  }

  lemma {:induction false} SubsequenceTransitive<T>(x: seq<T>, y: seq<T>, z: seq<T>)
    requires Subsequence(x, y) && Subsequence(y, z)
    ensures Subsequence(x, z)
    decreases |z|
  {
    if x != [] {
      if Subsequence(y, z[..|z| - 1]) {
        SubsequenceTransitive(x, y, z[..|z| - 1]);
      } else if Subsequence(x, y[..|y| - 1]) {
        SubsequenceTransitive(x, y[..|y| - 1], z[..|z| - 1]);
      } else {
        SubsequenceTransitive(x[..|x| - 1], y[..|y| - 1], z[..|z| - 1]);
      }
    }
  }

  lemma {:induction false} PrefixIsSubsequence<T>(x: seq<T>, y: seq<T>)
    requires x <= y
    ensures Subsequence(x, y)
  {
    SubsequenceSelf(x);
    assert Subsequence([], y[|x|..]) && x + [] == x && x + y[|x|..] == y;
    SubsequenceConcat(x, x, [], y[|x|..]);
  }

  lemma {:induction false} SocketIsSubsequence(written: seq<Packet>, id: SocketId)
    ensures Subsequence(WrittenOn(written, id), Texts(written))
  {
    if written != [] {
      var n := |written| - 1;
      SocketIsSubsequence(written[..n], id);
      assert Texts(written) == Texts(written[..n]) + [written[n].text];
      var mine: seq<Text> := if written[n].socket == id then [written[n].text] else [];
      SubsequenceSelf([written[n].text]);
      SubsequenceConcat(WrittenOn(written[..n], id), Texts(written[..n]), mine, [written[n].text]);
      assert WrittenOn(written, id) == WrittenOn(written[..n], id) + mine;
    }
  }

  /** From end to end: wherever a connection is cut and however its data is chunked, the
      messages the agent hands over from it are messages the bot sent, in that order. */
  lemma HandledWereSentInOrder(events: seq<Event>, maxQueueSize: nat, id: SocketId, arrived: string)
    returns (handled: seq<Text>)
    requires Runs(INITIAL, events, maxQueueSize) && DisciplinedRun(INITIAL, events, maxQueueSize)
    requires arrived <= Encode(WrittenOn(End(INITIAL, events, maxQueueSize).written, id))
    ensures Lines(arrived) == handled && Subsequence(handled, End(INITIAL, events, maxQueueSize).sends)
  {
    hide Runs, DisciplinedRun, End, Subsequence, Lines, Encode;
    var l := End(INITIAL, events, maxQueueSize);
    var sent := WrittenOn(l.written, id);
    CutStreamIsPrefix(sent, arrived);
    handled := sent[..|Lines(arrived)|];
    PrefixIsSubsequence(handled, sent);
    SocketIsSubsequence(l.written, id);
    SubsequenceTransitive(handled, sent, Texts(l.written));
    DeliveryIsOrdered(events, maxQueueSize);
    PrefixIsSubsequence(Texts(l.written), Texts(l.written) + l.queue);
    SubsequenceTransitive(handled, Texts(l.written), Texts(l.written) + l.queue);
    SubsequenceTransitive(handled, Texts(l.written) + l.queue, l.sends);
  }
}
