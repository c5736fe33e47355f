// What holds on every run of the login proxy, whatever the client, the game
// server and the kernel do.
module ProxyRuns {
  import opened Packets
  import opened Kernel
  import opened ProxySpec
  import opened ProxyInvariant
  import opened Wire

  // ---- End-to-end streams ----

  /** What the game server is meant to receive, given all bytes from the client. */
  ghost function ServerIsDue(s: Setup, fromClient: Bytes): Bytes
    requires HandshakeSize(s) <= |fromClient|
  {
    Greeting(s, fromClient[..83]) + (if s.ShowsServerList() then [0xa0, 0, 0] else [])
    + fromClient[if s.ShowsServerList() then 86 else 83..]
  }

  /** What the client is meant to receive, given all bytes from the game server. */
  ghost function ClientIsDue(s: Setup, fromServer: Bytes): Bytes
    requires s.ShowsServerList() ==> ServerListLength(fromServer).Some?
  {
    if s.ShowsServerList() then ListBytes(s.config.serverList) + fromServer[ServerListLength(fromServer).value..]
    else fromServer
  }

  /** The two ways in which the kernel cuts short what the game server is sent in
      the handshake, without the code taking it for an error: any positive part of
      the first packet will do, and any part of PlayServer(0), even none. */
  predicate ShortToServer(s: Setup, c: Conn, e: Event) {
    && Dispatched(c, e)
    && match e
       case Connected(sent) => |c.log.packets| == 83 && 0 < sent < |Greeting(s, c.log.packets)|
       case Outgoing(ready, io) =>
         && c.state.SendPlayServer? && !ready.dead
         && TakeServerList(io.inputs).1 && 0 <= io.reply < 3
       case _ => false
  }

  /** The same for our ServerList: any part of it will do. */
  predicate ShortToClient(s: Setup, c: Conn, e: Event) {
    && s.ShowsServerList() && Dispatched(c, e)
    && match e
       case Checked(result, io) => result && ShortList(s, io.reply)
       case Incoming(ready, io) =>
         c.state.Initial? && !ready.dead && LoginArrives(c, io) && io.lookup.NoDatabase? && ShortList(s, io.reply)
       case _ => false
  }

  predicate ShortList(s: Setup, reply: int) { 0 <= reply < 6 + 40 * |s.config.serverList| }

  /** The input completes a well-formed login. */
  predicate LoginArrives(c: Conn, io: Io)
    requires |c.log.packets| <= 83
  {
    var input := Clip(Input(io.inputs, 0), 83 - |c.log.packets|);
    input.Data? && IsLogin(c.log.packets + input.bytes)
  }

  predicate ShortToServerAt(s: Setup, events: seq<Event>, k: nat)
    requires k < |events|
  {
    ShortToServer(s, Run(s, events[..k]), events[k])
  }

  predicate ShortToClientAt(s: Setup, events: seq<Event>, k: nat)
    requires k < |events|
  {
    ShortToClient(s, Run(s, events[..k]), events[k])
  }

  /** No event of the run has cut short what the server, or the client, is sent. */
  ghost predicate ServerGotWhole(s: Setup, events: seq<Event>) {
    forall k | 0 <= k < |events| :: !ShortToServerAt(s, events, k)
  }

  ghost predicate ClientGotWhole(s: Setup, events: seq<Event>) {
    forall k | 0 <= k < |events| :: !ShortToClientAt(s, events, k)
  }

  /** Once relaying, the server's stream and the bytes still in the pipe are
      together exactly what the server is due, if and only if its handshake packets
      were not cut short; after the end, what was delivered is still a prefix.
      Before relaying, at most a prefix of the first packet has been sent. */
  ghost predicate ServerStreamIntact(s: Setup, c: Conn, whole: bool) {
    if c.state.Ready? then
      && HandshakeSize(s) <= |c.up.src|
      && (c.log.status == Alive ==> (whole <==> c.up.dst + c.up.buffer == ServerIsDue(s, c.up.src)))
      && (whole ==> c.up.dst <= ServerIsDue(s, c.up.src))
    else
      c.up.dst == [] || (|c.up.src| >= INITIAL_SIZE && c.up.dst <= Greeting(s, c.up.src[..83]))
  }

  /** The same in the other direction: our own ServerList, if there is one, then
      the server's bytes with exactly its first ServerList packet cut out; before
      that, at most our ServerList or a rejection. */
  ghost predicate ClientStreamIntact(s: Setup, c: Conn, whole: bool) {
    if c.state.Ready? then
      && (s.ShowsServerList() ==> ServerListLength(c.down.src).Some?)
      && (c.log.status == Alive ==> (whole <==> c.down.dst + c.down.buffer == ClientIsDue(s, c.down.src)))
      && (whole ==> c.down.dst <= ClientIsDue(s, c.down.src))
    else
      c.down.dst <= [0x82, 0x03] || (s.ShowsServerList() && c.down.dst <= ListBytes(s.config.serverList))
  }

  lemma ClientToServer(s: Setup, events: seq<Event>)
    ensures ServerStreamIntact(s, Run(s, events), ServerGotWhole(s, events))
  {
    hide Consistent;
    hide Run;
    hide ServerStreamIntact;
    RunInv(s, events);
    WholeIff(s, events);
    UpIntact(s, Run(s, events));
  }

  lemma ServerToClient(s: Setup, events: seq<Event>)
    ensures ClientStreamIntact(s, Run(s, events), ClientGotWhole(s, events))
  {
    hide Consistent;
    hide Run;
    hide ClientStreamIntact;
    RunInv(s, events);
    WholeIff(s, events);
    DownIntact(s, Run(s, events));
  }

  /** The two packets for the game server were sent whole, as far as sent at all. */
  predicate SentWhole(s: Setup, c: Conn) {
    && (c.state.SendPlayServer? || c.state.Ready? ==>
         |c.log.packets| == INITIAL_SIZE && c.log.sentHello == s.HelloTo(c.log.packets))
    && (c.state.Ready? && s.ShowsServerList() ==> c.log.sentPlay == PlayServer(0))
  }

  predicate ListSentWhole(s: Setup, c: Conn) {
    LoggedIn(c) && s.ShowsServerList() ==> c.log.sentList == ServerListPacket(s.Names())
  }

  lemma UpIntact(s: Setup, c: Conn)
    requires c in Consistent(s)
    ensures ServerStreamIntact(s, c, SentWhole(s, c))
  {
    if |c.log.packets| == INITIAL_SIZE {
      assert c.up.src[..INITIAL_SIZE] == c.log.packets;
      HelloIsGreeting(s, c.log.packets);
    }
    if c.state.Ready? {
      HandshakeTaken(s, c);
    }
  }

  lemma DownIntact(s: Setup, c: Conn)
    requires c in Consistent(s)
    ensures ClientStreamIntact(s, c, ListSentWhole(s, c))
  {
    PacketIsList(s);
    if c.state.Ready? {
      ListTaken(s, c);
    }
  }

  // What one event means for SentWhole and ListSentWhole.

  ghost predicate WholeStep(s: Setup, c: Conn, c': Conn, shortToServer: bool, shortToClient: bool) {
    && (SentWhole(s, c') <==> SentWhole(s, c) && !shortToServer)
    && (ListSentWhole(s, c') <==> ListSentWhole(s, c) && !shortToClient)
  }

  /** Most events send nothing of the handshake. */
  lemma NothingSent(s: Setup, c: Conn, c': Conn)
    requires c'.state == c.state && c'.log == c.log.(status := c'.log.status, calls := c'.log.calls)
    ensures WholeStep(s, c, c', false, false)
  {}

  lemma RelaySent(s: Setup, c: Conn, ready: Ready, io: Io)
    ensures WholeStep(s, c, RelayIncoming(c, ready, io), false, false)
    ensures WholeStep(s, c, RelayOutgoing(c, ready, io), false, false)
  {
    hide Relay;
    NothingSent(s, c, RelayIncoming(c, ready, io));
    NothingSent(s, c, RelayOutgoing(c, ready, io));
  }

  lemma ConnectedSent(s: Setup, c: Conn, sent: int)
    requires c.log.status == Alive && c.state.Connecting? && |c.log.packets| == INITIAL_SIZE
    requires c.sendPlayServer <==> s.ShowsServerList()
    ensures WholeStep(s, c, OnSocketConnectSuccess(s, c, sent), 0 < sent < |Greeting(s, c.log.packets)|, false)
  {
    HelloIsGreeting(s, c.log.packets);
    hide Hello;
  }

  lemma PlayServerSent(s: Setup, c: Conn, io: Io)
    requires c.log.status == Alive && c.state.SendPlayServer? && s.ShowsServerList()
    ensures WholeStep(s, c, ReceiveServerList(c, io),
                      TakeServerList(io.inputs).1 && 0 <= io.reply < PLAY_SERVER_SIZE, false)
  {
    hide TakeServerList;
    hide Hello;
  }

  lemma ChoiceSent(s: Setup, c: Conn, io: Io)
    requires c.log.status == Alive && c.state.ServerList?
    ensures WholeStep(s, c, ReceivePlayServer(s, c, io), false, false)
  {
    hide Choice;
  }

  lemma CheckSent(s: Setup, c: Conn, result: bool, io: Io)
    requires c.log.status == Alive && c.state.CheckCredentials?
    ensures WholeStep(s, c, OnCheckCredentials(s, c, result, io), false,
                      s.ShowsServerList() && result && ShortList(s, io.reply))
  {
    hide ServerListPacket;
  }

  lemma CheckLoginSent(s: Setup, c: Conn, io: Io)
    requires c.log.status == Alive && c.state.Initial? && |c.log.packets| == INITIAL_SIZE
    ensures var valid := WellFormedLogin(c.log.packets) && ValidUsername(Username(c.log.packets));
            WholeStep(s, c, CheckLogin(s, c, io), false,
                      s.ShowsServerList() && valid && io.lookup.NoDatabase? && ShortList(s, io.reply))
  {
    hide OnCheckCredentials;
    hide ServerListPacket;
    hide WellFormedLogin;
    hide ValidUsername;
    hide Username;
    hide Password;
    var credentials := Credentials(Username(c.log.packets), Password(c.log.packets));
    CheckSent(s, Log(c.(state := CheckCredentials), AskedFor(credentials)), true, io);
  }

  lemma LoginSent(s: Setup, c: Conn, io: Io)
    requires c.log.status == Alive && c.state.Initial? && |c.log.packets| < INITIAL_SIZE
    ensures WholeStep(s, c, ReceiveLoginPackets(s, c, io), false,
                      s.ShowsServerList() && LoginArrives(c, io) && io.lookup.NoDatabase? && ShortList(s, io.reply))
  {
    hide CheckLogin;
    hide ServerListPacket;
    hide ValidUsername;
    hide Username;
    var input := Clip(Input(io.inputs, 0), INITIAL_SIZE - |c.log.packets|);
    if input.Data? && |c.log.packets| + |input.bytes| == INITIAL_SIZE {
      LoginSays(c.log.packets + input.bytes);
      CheckLoginSent(s, c.(up := c.up.(src := c.up.src + input.bytes, read := false),
                           pending := c.pending.(timeout := false),
                           log := c.log.(packets := c.log.packets + input.bytes)), io);
    }
  }

  lemma ReadySent(s: Setup, c: Conn, ready: Ready, io: Io)
    requires c in Consistent(s) && c.log.status == Alive && Fires(ready)
    ensures (ready.read ==> c.up.read) && (ready.write ==> c.down.write) ==>
              WholeStep(s, c, OnIncomingReady(s, c, ready, io), false,
                        && s.ShowsServerList() && c.state.Initial? && !ready.dead
                        && LoginArrives(c, io) && io.lookup.NoDatabase? && ShortList(s, io.reply))
    ensures c.outgoing && (ready.read ==> c.down.read) && (ready.write ==> c.up.write) ==>
              WholeStep(s, c, OnOutgoingReady(c, ready, io),
                        c.state.SendPlayServer? && !ready.dead && TakeServerList(io.inputs).1
                        && 0 <= io.reply < PLAY_SERVER_SIZE, false)
  {
    hide Consistent;
    hide WholeStep;
    hide LoginArrives;
    hide ShortList;
    hide ReceiveLoginPackets;
    hide ReceivePlayServer;
    hide ReceiveServerList;
    hide RelayIncoming;
    hide RelayOutgoing;
    PendingIn(s, c);
    NothingSent(s, c, Destroy(c));
    NothingSent(s, c, Destroy(Charge(c, 4)));
    NothingSent(s, c, Destroy(Charge(c, 5)));
    NothingSent(s, c, Abort(c));
    RelaySent(s, c, ready, io);
    match c.state
    case Initial => LoginSent(s, c, io);
    case ServerList => ChoiceSent(s, c, io);
    case SendPlayServer =>
      ChosenIn(s, c);
      PlayServerSent(s, c, io);
    case _ =>
  }

  lemma ChosenIn(s: Setup, c: Conn)
    requires c in Consistent(s) && c.log.status == Alive
    ensures c.state.SendPlayServer? ==> s.ShowsServerList()
    ensures c.state.Connecting? ==> |c.log.packets| == INITIAL_SIZE && (c.sendPlayServer <==> s.ShowsServerList())
  {}

  lemma StepSent(s: Setup, c: Conn, e: Event)
    requires c in Consistent(s)
    ensures WholeStep(s, c, Step(s, c, e), ShortToServer(s, c, e), ShortToClient(s, c, e))
  {
    hide Consistent;
    hide WholeStep;
    hide ShortList;
    hide LoginArrives;
    hide OnIncomingReady;
    hide OnOutgoingReady;
    hide OnCheckCredentials;
    hide OnSocketConnectSuccess;
    NothingSent(s, c, c);
    if Dispatched(c, e) {
      PendingIn(s, c);
      ChosenIn(s, c);
      match e
      case Incoming(r, io) => ReadySent(s, c, Mask(r, c.up.read, c.down.write), io);
      case Outgoing(r, io) => ReadySent(s, c, Mask(r, c.down.read, c.up.write), io);
      case Checked(result, io) => CheckSent(s, c, result, io);
      case Connected(sent) => ConnectedSent(s, c, sent);
      case _ => NothingSent(s, c, Step(s, c, e));
    }
  }

  /** What the kernel took of the packets is told by the events alone. */
  lemma {:induction false} WholeIff(s: Setup, events: seq<Event>)
    ensures SentWhole(s, Run(s, events)) <==> ServerGotWhole(s, events)
    ensures ListSentWhole(s, Run(s, events)) <==> ClientGotWhole(s, events)
  {
    hide Consistent;
    hide Step;
    hide SentWhole;
    hide ListSentWhole;
    hide ShortToServer;
    hide ShortToClient;
    if events == [] {
      StartsWhole(s);
    } else {
      var last := |events| - 1;
      var before := events[..last];
      WholeIff(s, before);
      RunInv(s, before);
      StepSent(s, Run(s, before), events[last]);
      forall k | 0 <= k < last
        ensures ShortToServerAt(s, before, k) == ShortToServerAt(s, events, k)
        ensures ShortToClientAt(s, before, k) == ShortToClientAt(s, events, k)
      {
        assert before[..k] == events[..k];
      }
      assert ShortToServerAt(s, events, last) == ShortToServer(s, Run(s, before), events[last]);
      assert ShortToClientAt(s, events, last) == ShortToClient(s, Run(s, before), events[last]);
    }
  }

  lemma StartsWhole(s: Setup)
    ensures SentWhole(s, START) && ListSentWhole(s, START)
  {}

  lemma HandshakeTaken(s: Setup, c: Conn)
    requires |c.log.packets| == INITIAL_SIZE && HandshakeSize(s) <= |c.up.src|
             && c.log.packets == c.up.src[..INITIAL_SIZE]
    requires c.log.sentHello <= s.HelloTo(c.log.packets) && c.log.sentPlay <= PlayServer(0)
             && (s.ShowsServerList() || c.log.sentPlay == [])
    ensures c.log.sentHello == s.HelloTo(c.log.packets) && (s.ShowsServerList() ==> c.log.sentPlay == PlayServer(0))
       <==> Upstream(s, c) == ServerIsDue(s, c.up.src)
  {
    HelloIsGreeting(s, c.log.packets);
    hide Greeting;
    hide Hello;
    assert PlayServer(0) == [0xa0, 0, 0];
    SameParts(c.log.sentHello, c.log.sentPlay, s.HelloTo(c.log.packets),
              if s.ShowsServerList() then [0xa0, 0, 0] else [], c.up.src[HandshakeSize(s)..]);
  }

  lemma SameParts(a: Bytes, b: Bytes, x: Bytes, y: Bytes, rest: Bytes)
    requires a <= x && b <= y
    ensures a == x && b == y <==> a + b + rest == x + y + rest
  {
    if a != x || b != y {
      assert |a + b + rest| < |x + y + rest|;
    }
  }

  lemma ListTaken(s: Setup, c: Conn)
    requires Skipped(s, c).Some? && Skipped(s, c).value <= |c.down.src|
    requires c.log.sentList <= ServerListPacket(s.Names()) && (s.ShowsServerList() || c.log.sentList == [])
    ensures (s.ShowsServerList() ==> c.log.sentList == ServerListPacket(s.Names()))
       <==> Downstream(s, c) == ClientIsDue(s, c.down.src)
  {
    PacketIsList(s);
    if s.ShowsServerList() && c.log.sentList != ServerListPacket(s.Names()) {
      assert |Downstream(s, c)| < |ClientIsDue(s, c.down.src)|;
    } else {
      assert [] + c.down.src == c.down.src;
    }
  }

  /** When relaying ends because one side closed its connection, all that this
      side sent had reached the other before the FIN. */
  lemma CleanClose(s: Setup, events: seq<Event>)
    requires Run(s, events).state.Ready?
    ensures var c := Run(s, events);
            && Established(s, c)
            && (c.up.fin ==> c.log.status == Closed && c.up.dst == Upstream(s, c))
            && (c.down.fin ==> c.log.status == Closed && c.down.dst == Downstream(s, c))
  {
    RunInv(s, events);
    AbortedOnlyConnecting(s, events);
  }

  // ---- Assertions ----

  /** The event that breaks the assertion at src/Connection.cxx:281: without a
      server list, client data arriving while the game server is being contacted. */
  ghost predicate EarlyData(s: Setup, c: Conn, e: Event) {
    && c.log.status == Alive && c.state.Connecting? && !s.ShowsServerList()
    && e.Incoming? && e.ready.read && !e.ready.dead
  }

  /** How a step before the game server is reached can end. */
  predicate StillBefore(c': Conn) { c'.log.status != Aborted && !c'.state.Ready? }

  lemma CheckStepped(s: Setup, c: Conn, result: bool, io: Io)
    requires c.log.status == Alive && !c.state.Ready?
    ensures StillBefore(OnCheckCredentials(s, c, result, io))
  {}

  lemma CheckLoginStepped(s: Setup, c: Conn, io: Io)
    requires c.log.status == Alive && !c.state.Ready? && |c.log.packets| == INITIAL_SIZE
    ensures StillBefore(CheckLogin(s, c, io))
  {
    hide OnCheckCredentials;
    hide WellFormedLogin;
    hide Username;
    hide Password;
    var credentials := Credentials(Username(c.log.packets), Password(c.log.packets));
    CheckStepped(s, Log(c.(state := CheckCredentials), AskedFor(credentials)), true, io);
  }

  lemma LoginStepped(s: Setup, c: Conn, io: Io)
    requires c.log.status == Alive && !c.state.Ready? && |c.log.packets| < INITIAL_SIZE
    ensures StillBefore(ReceiveLoginPackets(s, c, io))
  {
    hide CheckLogin;
    var input := Clip(Input(io.inputs, 0), INITIAL_SIZE - |c.log.packets|);
    if input.Data? && |c.log.packets| + |input.bytes| == INITIAL_SIZE {
      var src := c.up.src + input.bytes;
      CheckLoginStepped(s, c.(up := c.up.(src := src, read := false), pending := c.pending.(timeout := false),
          log := c.log.(packets := c.log.packets + input.bytes)), io);
    }
  }

  lemma PlayServerStepped(s: Setup, c: Conn, io: Io)
    requires c.log.status == Alive && !c.state.Ready?
    ensures StillBefore(ReceivePlayServer(s, c, io))
  {
    hide Choice;
  }

  /** Relaying begins with READ scheduled on both sides of unchanged pipes. */
  predicate BeginsRelay(c: Conn, c': Conn) {
    && c'.log.status != Aborted
    && (c'.log.status == Alive ==>
         && c'.up.read && c'.up.buffer == c.up.buffer
         && c'.down.read == c.down.read && c'.down.buffer == c.down.buffer)
  }

  lemma ServerListStepped(c: Conn, io: Io)
    requires c.log.status == Alive
    ensures BeginsRelay(c, ReceiveServerList(c, io))
  {
    hide TakeServerList;
  }

  lemma EventStepped(s: Setup, c: Conn, io: Io)
    requires c.log.status == Alive && !c.state.Ready?
    ensures |c.log.packets| < INITIAL_SIZE ==> StillBefore(ReceiveLoginPackets(s, c, io))
    ensures StillBefore(ReceivePlayServer(s, c, io))
    ensures BeginsRelay(c, ReceiveServerList(c, io))
  {
    hide *;
    if |c.log.packets| < INITIAL_SIZE {
      LoginStepped(s, c, io);
    }
    PlayServerStepped(s, c, io);
    ServerListStepped(c, io);
  }

  lemma StepAborts(s: Setup, c: Conn, e: Event)
    requires c in Consistent(s) && c.log.status == Alive
    ensures Step(s, c, e).log.status == Aborted <==> EarlyData(s, c, e)
    ensures Step(s, c, e).log.status == Aborted ==> Step(s, c, e).state.Connecting?
  {
    hide Consistent;
    hide RelayIncoming;
    hide RelayOutgoing;
    hide OnCheckCredentials;
    hide ReceiveLoginPackets;
    hide ReceivePlayServer;
    hide ReceiveServerList;
    PendingIn(s, c);
    if Dispatched(c, e) && (e.Incoming? || e.Outgoing?) {
      if !c.state.Ready? {
        EventStepped(s, c, e.io);
      } else {
        ReadyLanes(s, c);
        RelaysStep(c, Mask(e.ready, c.up.read, c.down.write), e.io);
        RelaysStep(c, Mask(e.ready, c.down.read, c.up.write), e.io);
      }
    } else if Dispatched(c, e) && e.Checked? {
      CheckStepped(s, c, e.result, e.io);
    }
  }

  ghost predicate EarlyDataAt(s: Setup, events: seq<Event>, k: nat)
    requires k < |events|
  {
    EarlyData(s, Run(s, events[..k]), events[k])
  }

  /** Of all the assertions in Connection.cxx and Splice.cxx, a run can fail only
      one, and fails it exactly if early data arrives. */
  lemma {:induction false} AssertionsHold(s: Setup, events: seq<Event>)
    ensures Run(s, events).log.status == Aborted <==> exists k | 0 <= k < |events| :: EarlyDataAt(s, events, k)
  {
    hide Consistent;
    hide Step;
    hide EarlyData;
    if events != [] {
      var last := |events| - 1;
      var before := events[..last];
      var c := Run(s, before);
      AssertionsHold(s, before);
      RunInv(s, before);
      forall k | 0 <= k < last ensures EarlyDataAt(s, before, k) <==> EarlyDataAt(s, events, k) {
        assert before[..k] == events[..k];
      }
      assert EarlyDataAt(s, events, last) <==> EarlyData(s, c, events[last]);
      if c.log.status == Alive {
        StepAborts(s, c, events[last]);
      } else {
        EndStays(s, c, events[last]);
      }
    }
  }

  lemma {:induction false} AbortedOnlyConnecting(s: Setup, events: seq<Event>)
    ensures Run(s, events).log.status == Aborted ==> Run(s, events).state.Connecting?
  {
    if events != [] {
      var before := events[..|events| - 1];
      AbortedOnlyConnecting(s, before);
      RunInv(s, before);
      if Run(s, before).log.status == Alive {
        StepAborts(s, Run(s, before), events[|events| - 1]);
      } else {
        EndStays(s, Run(s, before), events[|events| - 1]);
      }
    }
  }

  lemma EndStays(s: Setup, c: Conn, e: Event)
    requires c.log.status != Alive
    ensures Step(s, c, e) == c && !EarlyData(s, c, e)
  {}

  // ---- Flow control and the stall ----

  /** At every event boundary bytes wait in a pipe exactly while WRITE is
      scheduled at their destination, and then READ is not scheduled at their
      source; so the branches for a full pipe are never taken. */
  lemma FlowControl(s: Setup, events: seq<Event>)
    ensures var c := Run(s, events);
            c.log.status == Alive ==> Balanced(c.up) && Balanced(c.down)
  {
    RunInv(s, events);
  }

  /** What happens to a lane whose READ is not scheduled, and when it is not. */
  predicate Drains(l: Lane, l': Lane) {
    !l.read ==> l'.src == l.src && !l'.read && l'.dst + l'.buffer <= l.dst + l.buffer
  }

  predicate StopsOnBackpressure(l: Lane, l': Lane) { l'.read <==> l.read && l'.buffer == [] }

  predicate RelayStepped(c: Conn, c': Conn) {
    && c'.state.Ready? && c'.log.status != Aborted && Drains(c.up, c'.up) && Drains(c.down, c'.down)
    && (c'.log.status == Alive ==> StopsOnBackpressure(c.up, c'.up) && StopsOnBackpressure(c.down, c'.down))
  }

  lemma RelaysStep(c: Conn, ready: Ready, io: Io)
    requires Balanced(c.up) && Balanced(c.down) && c.log.status == Alive && c.state.Ready?
    ensures (ready.write ==> c.down.write) && (ready.read ==> c.up.read)
            ==> RelayStepped(c, RelayIncoming(c, ready, io))
    ensures (ready.write ==> c.up.write) && (ready.read ==> c.down.read)
            ==> RelayStepped(c, RelayOutgoing(c, ready, io))
  {
    if (ready.write ==> c.down.write) && (ready.read ==> c.up.read) {
      RelayDrains(c.down, c.up, ready, io);
    }
    if (ready.write ==> c.up.write) && (ready.read ==> c.down.read) {
      RelayDrains(c.up, c.down, ready, io);
    }
  }

  lemma RelayDrains(drained: Lane, filled: Lane, ready: Ready, io: Io)
    requires Balanced(drained) && Balanced(filled)
    requires (ready.write ==> drained.write) && (ready.read ==> filled.read)
    ensures var (d, f, v, n) := Relay(drained, filled, ready, io);
            && v != AssertFails
            && (v == Keep ==> Drains(drained, d) && Drains(filled, f))
            && (v == Keep ==> StopsOnBackpressure(drained, d) && StopsOnBackpressure(filled, f))
            && Drains(drained, Shut(d)) && Drains(filled, Shut(f))
  {
    RelayKeeps(drained, filled, ready, io);
    var (d, f, v, n) := Relay(drained, filled, ready, io);
    hide Relay;
    assert !filled.read ==> f.src[|filled.src|..] == [];
    assert d.dst <= drained.dst + drained.buffer;
    assert !filled.read ==> f.dst <= filled.dst + filled.buffer;
    assert d.dst + [] == d.dst && f.dst + [] == f.dst;
  }

  lemma RelayStep(s: Setup, c: Conn, e: Event)
    requires c in Consistent(s) && c.log.status == Alive && c.state.Ready?
    ensures RelayStepped(c, Step(s, c, e))
  {
    hide Consistent;
    hide RelayIncoming;
    hide RelayOutgoing;
    PendingIn(s, c);
    ReadyLanes(s, c);
    if Dispatched(c, e) && (e.Incoming? || e.Outgoing?) {
      RelaysStep(c, Mask(e.ready, c.up.read, c.down.write), e.io);
      RelaysStep(c, Mask(e.ready, c.down.read, c.up.write), e.io);
    }
  }

  /** No handler schedules READ again: once backpressure has stopped a direction,
      it delivers at most the bytes already in its pipe, whatever happens later. */
  lemma {:induction false} StallIsForever(s: Setup, events: seq<Event>, more: seq<Event>)
    requires Run(s, events).log.status == Alive && Run(s, events).state.Ready?
    ensures var c, c' := Run(s, events), Run(s, events + more);
            c'.state.Ready? && Drains(c.up, c'.up) && Drains(c.down, c'.down)
  {
    hide Consistent;
    hide Step;
    if more == [] {
      assert events + more == events;
    } else {
      var before, last := more[..|more| - 1], more[|more| - 1];
      StallIsForever(s, events, before);
      assert (events + more)[..|events + more| - 1] == events + before;
      RunInv(s, events + before);
      if Run(s, events + before).log.status == Alive {
        RelayStep(s, Run(s, events + before), last);
      } else {
        EndStays(s, Run(s, events + before), last);
      }
    }
  }

  lemma BecomesReady(s: Setup, c: Conn, e: Event)
    requires c in Consistent(s) && c.log.status == Alive && !c.state.Ready?
    ensures var c' := Step(s, c, e);
            c'.log.status == Alive && c'.state.Ready? ==>
              c'.up.read && c'.up.buffer == [] && c'.down.read && c'.down.buffer == []
  {
    hide Consistent;
    hide RelayIncoming;
    hide RelayOutgoing;
    hide OnCheckCredentials;
    hide ReceiveLoginPackets;
    hide ReceivePlayServer;
    hide ReceiveServerList;
    PendingIn(s, c);
    HandshakeLanes(s, c);
    if Dispatched(c, e) && (e.Incoming? || e.Outgoing?) {
      EventStepped(s, c, e.io);
    } else if Dispatched(c, e) && e.Checked? {
      CheckStepped(s, c, e.result, e.io);
    }
  }

  lemma HandshakeLanes(s: Setup, c: Conn)
    requires c in Consistent(s) && c.log.status == Alive && !c.state.Ready?
    ensures c.up.buffer == [] && c.down.buffer == [] && (c.state.SendPlayServer? ==> c.down.read)
    ensures c.state.Connecting? ==> (c.sendPlayServer <==> s.ShowsServerList())
  {}

  /** Exactly how a live connection comes to have READ scheduled while relaying:
      its pipe was empty at every event boundary since the relaying began. */
  lemma {:induction false} ReadScheduledIff(s: Setup, events: seq<Event>)
    requires Run(s, events).log.status == Alive && Run(s, events).state.Ready?
    ensures Run(s, events).up.read <==> forall k | 0 <= k <= |events| ::
              Run(s, events[..k]).state.Ready? ==> Run(s, events[..k]).up.buffer == []
    ensures Run(s, events).down.read <==> forall k | 0 <= k <= |events| ::
              Run(s, events[..k]).state.Ready? ==> Run(s, events[..k]).down.buffer == []
  {
    hide Consistent;
    hide Step;
    var last := |events| - 1;
    var before := events[..last];
    var c := Run(s, before);
    RunInv(s, before);
    if c.log.status != Alive {
      EndStays(s, c, events[last]);
    }
    assert events[..|events|] == events;
    assert forall k | 0 <= k <= last :: before[..k] == events[..k];
    if c.state.Ready? {
      RelayStep(s, c, events[last]);
      ReadScheduledIff(s, before);
    } else {
      BecomesReady(s, c, events[last]);
      NotReadyBefore(s, before);
    }
  }

  /** Relaying is never left, except by the connection's end. */
  lemma {:induction false} NotReadyBefore(s: Setup, events: seq<Event>)
    requires !Run(s, events).state.Ready?
    ensures forall k | 0 <= k <= |events| :: !Run(s, events[..k]).state.Ready?
  {
    hide Consistent;
    hide Step;
    if events == [] {
      assert forall k | 0 <= k <= |events| :: events[..k] == [];
    } else {
      var before := events[..|events| - 1];
      RunInv(s, before);
      if Run(s, before).state.Ready? && Run(s, before).log.status == Alive {
        RelayStep(s, Run(s, before), events[|events| - 1]);
      } else if Run(s, before).log.status != Alive {
        EndStays(s, Run(s, before), events[|events| - 1]);
      }
      NotReadyBefore(s, before);
      assert events[..|events|] == events;
      assert forall k | 0 <= k < |events| :: before[..k] == events[..k];
    }
  }

  // ---- Control state ----

  /** What is pending follows from the state, and nothing is pending after the end. */
  lemma StateAlignment(s: Setup, events: seq<Event>)
    ensures var c := Run(s, events);
            && (c.log.status == Alive ==> Aligned(c))
            && (c.log.status == Closed ==> Released(c))
  {
    RunInv(s, events);
  }

  /** A game server is contacted only after an accepted login with the credentials
      from the client's own first 83 bytes, and only at a configured address. */
  lemma ConnectsOnlyAuthorized(s: Setup, events: seq<Event>)
    ensures var c := Run(s, events);
            var src, servers := c.up.src, s.config.serverList;
            c.outgoingAddress.Some? ==>
              && LoginAccepted in c.log.calls
              && 83 <= |src| && IsLogin(src[..83])
              && AskedFor(Credentials(CString(src[22..52]), CString(src[52..82]))) in c.log.calls
              && if servers == [] then c.outgoingAddress == Some(s.config.gameServer)
                 else
                   && 86 <= |src| && src[83] == 0xa0 && Number(src[84], src[85]) < |servers|
                   && c.outgoingAddress == Some(servers[Number(src[84], src[85])].address)
  {
    hide Run;
    hide Consistent;
    RunInv(s, events);
    var c := Run(s, events);
    if c.outgoingAddress.Some? {
      Authorization(s, c);
      var src := c.up.src;
      LoginSays(src[..83]);
      assert src[..83][22..52] == src[22..52] && src[..83][52..82] == src[52..82];
      if s.config.serverList != [] {
        ChoiceSays(s, src[83..86]);
        assert src[83..86] == [src[83], src[84], src[85]];
      }
    }
  }

  /** What the invariant says of a connection that has chosen an address. */
  lemma Authorization(s: Setup, c: Conn)
    requires c in Consistent(s) && c.outgoingAddress.Some?
    ensures LoginAccepted in c.log.calls && INITIAL_SIZE <= |c.up.src|
    ensures var packets := c.up.src[..INITIAL_SIZE];
            && WellFormedLogin(packets) && ValidUsername(Username(packets))
            && AskedFor(Credentials(Username(packets), Password(packets))) in c.log.calls
    ensures if s.ShowsServerList() then |c.up.src| >= 86 && c.outgoingAddress == Choice(s, c.up.src[83..86])
            else c.outgoingAddress == Some(s.config.gameServer)
  {
    assert c.up.src[..INITIAL_SIZE] == c.log.packets;
  }

  // ---- Framing ----

  /** Whatever pieces the server's stream arrives in: reading its ServerList packet
      succeeds exactly if it takes the whole packet, and never takes more. */
  lemma ServerListAnyChunking(names: seq<Bytes>, rest: Bytes, inputs: seq<Received>)
    requires 1 <= |names| <= 1638
    requires TakeServerList(inputs).0 <= ServerListPacket(names) + rest
    ensures var (taken, ok) := TakeServerList(inputs);
            && taken <= ServerListPacket(names)
            && (ok <==> taken == ServerListPacket(names))
  {
    hide TakeServerList;
    hide ServerInfos;
    var p := ServerListPacket(names);
    var (taken, ok) := TakeServerList(inputs);
    assert (p + rest)[1..3] == p[1..3] == BE16(|p|);
    BE16RoundTrip(|p|);
    assert |taken| >= 3 ==> taken[1..3] == (p + rest)[1..3];
    TakenAtMost(inputs, |p|);
    TakenIsServerList(inputs);
    assert taken == (p + rest)[..|taken|] == p[..|taken|];
  }

  lemma TakenAtMost(inputs: seq<Received>, size: nat)
    requires var taken := TakeServerList(inputs).0;
             size >= SERVER_LIST_MIN_SIZE && (|taken| >= 3 ==> ReadBE16(taken[1..3]) == size)
    ensures var (taken, ok) := TakeServerList(inputs);
            |taken| <= size && (|taken| == size ==> |taken| >= 3 && (taken[0] == SERVER_LIST ==> ok))
  {
    var taken := TakeServerList(inputs).0;
    if Clip(Input(inputs, 0), 1).Data? && Clip(Input(inputs, 1), 2).Data? {
      var cmd, length := Clip(Input(inputs, 0), 1).bytes, Clip(Input(inputs, 1), 2).bytes;
      if |length| == 2 && |taken| >= 3 {
        assert taken[1..3] == length;
      }
    }
  }

  function Pieces(b: Bytes): seq<Received> {
    if |b| == 0 then [] else [Data(Prefix(b, 1024))] + Pieces(b[|Prefix(b, 1024)|..])
  }

  lemma {:induction false} PiecesDiscarded(b: Bytes)
    ensures Discarded(Pieces(b), |b|) == (true, b)
  {
    if b != [] {
      var first := Prefix(b, 1024);
      PiecesDiscarded(b[|first|..]);
      assert first + b[|first|..] == b;
    }
  }

  /** A server whose list was made by this encoder can be understood at all if and
      only if it lists at most 1638 servers. */
  lemma ServerListRoundTrip(names: seq<Bytes>)
    requires names != []
    ensures |names| <= 1638 <==> exists inputs :: TakeServerList(inputs) == (ServerListPacket(names), true)
  {
    var p := ServerListPacket(names);
    ServerListFraming(names, []);
    assert p + [] == p;
    if |names| <= 1638 {
      var inputs := [Data(p[..1]), Data(p[1..3])] + Pieces(p[3..]);
      PiecesDiscarded(p[3..]);
      assert inputs[2..] == Pieces(p[3..]);
      assert p[..1] + p[1..3] + p[3..] == p;
      assert TakeServerList(inputs) == (p, true);
    } else {
      forall inputs | TakeServerList(inputs) == (p, true) ensures false {
        TakenIsServerList(inputs);
      }
    }
  }
}
