// What every event keeps true of a proxied connection.
module ProxyInvariant {
  import opened Packets
  import opened Kernel
  import opened ProxySpec

  /** How many of the client's bytes belong to the handshake. */
  function HandshakeSize(s: Setup): nat {
    if s.ShowsServerList() then INITIAL_SIZE + PLAY_SERVER_SIZE else INITIAL_SIZE
  }

  /** Everything the game server is due: the accepted part of the two packets
      of the handshake, then the client's bytes after the handshake. */
  ghost function Upstream(s: Setup, c: Conn): Bytes
    requires HandshakeSize(s) <= |c.up.src|
  {
    c.log.sentHello + c.log.sentPlay + c.up.src[HandshakeSize(s)..]
  }

  /** How many of the server's bytes are its own ServerList packet. */
  ghost function Skipped(s: Setup, c: Conn): Option<nat> {
    if s.ShowsServerList() then ServerListLength(c.down.src) else Some(0)
  }

  /** Everything the client is due: our ServerList packet, if any, then the
      server's bytes without the server's ServerList packet. */
  ghost function Downstream(s: Setup, c: Conn): Bytes
    requires Skipped(s, c).Some? && Skipped(s, c).value <= |c.down.src|
  {
    c.log.sentList + c.down.src[Skipped(s, c).value..]
  }

  /** Bytes wait in the pipe exactly while WRITE is scheduled for them, and then
      READ is not scheduled. */
  predicate Balanced(l: Lane) { (l.buffer != [] <==> l.write) && (l.buffer != [] ==> !l.read) }

  ghost predicate Established(s: Setup, c: Conn) {
    && c.state.Ready?
    && |c.log.packets| == INITIAL_SIZE
    && HandshakeSize(s) <= |c.up.src|
    && Skipped(s, c).Some? && Skipped(s, c).value <= |c.down.src|
  }

  /** Pending work and open sockets follow from the state. */
  predicate Aligned(c: Conn) {
    && (c.pending.cancel <==> c.state.CheckCredentials?)
    && (c.pending.timeout <==> c.state.Initial? || c.state.ServerList?)
    && (c.pending.connect <==> c.state.Connecting?)
    && (c.outgoing <==> c.state.SendPlayServer? || c.state.Ready?)
  }

  /** The two lanes of a live connection, state by state. */
  ghost predicate Lanes(s: Setup, c: Conn) {
    match c.state
    case Initial => c.up == IDLE.(src := c.log.packets, read := true) && c.down == IDLE
    case CheckCredentials => c.up == IDLE.(src := c.log.packets) && c.down == IDLE
    case ServerList => c.up == IDLE.(src := c.log.packets, read := true) && c.down == IDLE.(dst := c.log.sentList)
    case Connecting =>
      && c.up == IDLE.(src := c.up.src, read := !s.ShowsServerList())
      && c.down == IDLE.(dst := c.log.sentList)
    case SendPlayServer =>
      && |c.log.packets| == INITIAL_SIZE
      && c.up == IDLE.(src := c.up.src, dst := c.log.sentHello)
      && c.down == IDLE.(read := true, dst := c.log.sentList)
    case Ready =>
      && Established(s, c)
      && Balanced(c.up) && c.up.dst + c.up.buffer == Upstream(s, c) && !c.up.fin
      && Balanced(c.down) && c.down.dst + c.down.buffer == Downstream(s, c) && !c.down.fin
  }

  predicate LoggedIn(c: Conn) {
    c.state.ServerList? || c.state.Connecting? || c.state.SendPlayServer? || c.state.Ready?
  }

  /** The client's handshake, and what was decided on it. */
  ghost predicate Authorized(s: Setup, c: Conn) {
    && c.log.packets <= c.up.src
    && (!c.state.Initial? ==>
      && |c.log.packets| == INITIAL_SIZE && WellFormedLogin(c.log.packets) && ValidUsername(Username(c.log.packets))
      && AskedFor(Credentials(Username(c.log.packets), Password(c.log.packets))) in c.log.calls)
    && (LoggedIn(c) ==> LoginAccepted in c.log.calls)
    && (c.state.ServerList? ==> s.ShowsServerList())
    && (c.state.Connecting? || c.state.SendPlayServer? || c.state.Ready? ==> Destination(s, c))
    && (c.state.SendPlayServer? ==> c.sendPlayServer)
    && (c.sendPlayServer ==> s.ShowsServerList() && LoggedIn(c))
    && (c.state.Initial? || c.state.CheckCredentials? || c.state.ServerList? ==> c.outgoingAddress.None?)
  }

  /** The address to connect to is the configured one, or the configured one that
      the client's PlayServer packet names. */
  ghost predicate Destination(s: Setup, c: Conn) {
    if s.ShowsServerList() then
      && c.sendPlayServer && HandshakeSize(s) <= |c.up.src|
      && c.outgoingAddress.Some?
      && c.outgoingAddress == Choice(s, c.up.src[INITIAL_SIZE..HandshakeSize(s)])
      && (!c.state.Ready? ==> |c.up.src| == HandshakeSize(s))
    else
      && !c.sendPlayServer && HandshakeSize(s) <= |c.up.src|
      && c.outgoingAddress == Some(s.config.gameServer)
      && (!c.state.Ready? ==> |c.up.src| == HandshakeSize(s))
  }

  /** What both ends have received, whatever became of the connection. */
  ghost predicate Delivered(s: Setup, c: Conn) {
    match c.state
    case Initial => c.up.dst == [] && c.down.dst <= REJECT
    case CheckCredentials => c.up.dst == [] && c.down.dst <= REJECT
    case SendPlayServer => c.up.dst == c.log.sentHello && c.down.dst == c.log.sentList
    case Ready =>
      && Established(s, c)
      && c.up.dst <= Upstream(s, c) && (c.up.fin ==> c.up.dst == Upstream(s, c))
      && c.down.dst <= Downstream(s, c) && (c.down.fin ==> c.down.dst == Downstream(s, c))
    case _ => c.up.dst == [] && c.down.dst == c.log.sentList
  }

  /** What the kernel accepted of the handshake's three packets. */
  ghost predicate Taken(s: Setup, c: Conn) {
    && c.log.sentList <= ServerListPacket(s.Names())
    && (!LoggedIn(c) || !s.ShowsServerList() ==> c.log.sentList == [])
    && (if c.state.Ready? || c.state.SendPlayServer?
        then |c.log.packets| == INITIAL_SIZE && c.log.sentHello <= s.HelloTo(c.log.packets)
        else c.log.sentHello == [])
    && c.log.sentPlay <= PlayServer(0)
    && (!c.state.Ready? || !s.ShowsServerList() ==> c.log.sentPlay == [])
  }

  predicate Released(c: Conn) {
    && !c.pending.cancel && !c.pending.timeout && !c.pending.connect && !c.outgoing
    && c.up == Shut(c.up) && c.down == Shut(c.down)
  }

  /** True of a connection in any state, even one about to be destroyed. */
  ghost predicate Common(s: Setup, c: Conn) {
    |c.log.packets| <= INITIAL_SIZE && Authorized(s, c) && Delivered(s, c) && Taken(s, c)
  }

  ghost predicate Inv(s: Setup, c: Conn) {
    && Common(s, c) && Sane(c)
    && (c.log.status == Alive ==> Aligned(c) && Lanes(s, c))
    && (c.log.status == Closed ==> Released(c))
  }

  /** The states that satisfy the invariant. */
  ghost function Consistent(s: Setup): iset<Conn> { iset c: Conn | Inv(s, c) }

  lemma StartInv(s: Setup)
    ensures START in Consistent(s)
  {}

  // ---- One splice ----

  lemma SpliceSendKeeps(l: Lane, r: Sent)
    requires l.buffer != []
    ensures var (l', v) := SpliceSend(l, r);
            && v != AssertFails
            && l'.src == l.src && l'.fin == l.fin
            && l.dst <= l'.dst && l'.dst + l'.buffer == l.dst + l.buffer
            && (v == Keep ==> Balanced(l') && (l'.read <==> l.read && l'.buffer == []))
  {
    if r.Took? {
      var taken := Prefix(l.buffer, r.n);
      assert taken + l.buffer[|taken|..] == l.buffer;
      assert l.dst + taken + l.buffer[|taken|..] == l.dst + (taken + l.buffer[|taken|..]);
    }
  }

  /** Of the bytes newly read, none is lost, whatever the splices achieve; the
      source's end is only seen with nothing left to send. */
  lemma SpliceReceiveKeeps(l: Lane, r: Received, forward: Sent)
    requires Balanced(l) && l.read
    ensures var (l', v, n) := SpliceReceive(l, r, forward);
            && v != AssertFails
            && |l'.src| == |l.src| + n && l.src <= l'.src
            && l.dst <= l'.dst && l'.dst + l'.buffer == l.dst + l'.src[|l.src|..]
            && (v == Keep ==> Balanced(l') && l'.fin == l.fin && (l'.read <==> l'.buffer == []))
            && (l'.fin && !l.fin ==> v == Close && l'.buffer == [])
  {
    match Clip(r, 0x4000_0000)
    case Data(b) =>
      var l1 := l.(src := l.src + b, buffer := l.buffer + b);
      assert l.buffer + b == b;
      SpliceSendKeeps(l1, forward);
      assert l1.src[|l.src|..] == b;
    case _ =>
  }

  lemma RelayKeeps(drained: Lane, filled: Lane, ready: Ready, io: Io)
    requires Balanced(drained) && Balanced(filled)
    requires (ready.write ==> drained.write) && (ready.read ==> filled.read)
    ensures var (d, f, v, n) := Relay(drained, filled, ready, io);
            && v != AssertFails
            && d.src == drained.src && d.fin == drained.fin
            && drained.dst <= d.dst && d.dst + d.buffer == drained.dst + drained.buffer
            && |f.src| == |filled.src| + n && filled.src <= f.src
            && filled.dst <= f.dst && f.dst + f.buffer == filled.dst + filled.buffer + f.src[|filled.src|..]
            && (v == Keep ==> Balanced(d) && Balanced(f) && f.fin == filled.fin)
            && (v == Keep ==> (d.read <==> drained.read && d.buffer == []))
            && (v == Keep ==> (f.read <==> filled.read && f.buffer == []))
            && (!filled.read ==> f.src == filled.src)
            && (f.fin && !filled.fin ==> v == Close && f.buffer == [])
  {
    if ready.write {
      SpliceSendKeeps(drained, io.drain);
    }
    if ready.read {
      SpliceReceiveKeeps(filled, Input(io.inputs, 0), io.forward);
      assert filled.dst + filled.buffer == filled.dst;
    }
  }

  // ---- The handlers ----

  /** Decisions once taken stay justified while the client sends more. */
  lemma AuthorizedLater(s: Setup, c: Conn, c': Conn)
    requires Authorized(s, c) && c'.state == c.state && c'.sendPlayServer == c.sendPlayServer
    requires c'.outgoingAddress == c.outgoingAddress && c'.log.packets == c.log.packets && c.log.calls <= c'.log.calls
    requires c.up.src <= c'.up.src && (c'.up.src == c.up.src || c.state.Ready?)
    ensures Authorized(s, c')
  {
    assert |c.up.src| >= HandshakeSize(s) ==>
        c'.up.src[INITIAL_SIZE..HandshakeSize(s)] == c.up.src[INITIAL_SIZE..HandshakeSize(s)];
  }

  lemma TakenLater(s: Setup, c: Conn, c': Conn)
    requires Taken(s, c) && c'.state == c.state && c'.log == c.log.(status := c'.log.status, calls := c'.log.calls)
    ensures Taken(s, c')
  {}

  lemma DeliveredLater(s: Setup, c: Conn, c': Conn)
    requires Delivered(s, c) && c'.state == c.state && c'.log == c.log.(status := c'.log.status, calls := c'.log.calls)
    requires c'.up.src == c.up.src && c'.up.dst == c.up.dst && c'.up.fin == c.up.fin
    requires c'.down.src == c.down.src && c'.down.dst == c.down.dst && c'.down.fin == c.down.fin
    ensures Delivered(s, c')
  {}

  lemma CommonLater(s: Setup, c: Conn, c': Conn)
    requires Common(s, c) && c'.state == c.state && c'.sendPlayServer == c.sendPlayServer
    requires c'.outgoingAddress == c.outgoingAddress && c.log.calls <= c'.log.calls
    requires c'.log == c.log.(status := c'.log.status, calls := c'.log.calls)
    requires c'.up.src == c.up.src && c'.up.dst == c.up.dst && c'.up.fin == c.up.fin
    requires c'.down.src == c.down.src && c'.down.dst == c.down.dst && c'.down.fin == c.down.fin
    ensures Common(s, c')
  {
    hide Authorized;
    hide Delivered;
    hide Taken;
    AuthorizedLater(s, c, c');
    DeliveredLater(s, c, c');
    TakenLater(s, c, c');
  }

  /** Whatever a connection is destroyed in, what it delivered stays delivered. */
  lemma DestroyInv(s: Setup, c: Conn)
    requires c.log.status == Alive && Common(s, c)
    ensures Destroy(c) in Consistent(s)
  {
    hide Authorized;
    hide Delivered;
    hide Taken;
    CommonLater(s, c, Destroy(c));
    assert Inv(s, Destroy(c));
  }

  /** More bytes behind a ServerList packet do not move its end. */
  lemma ServerListLengthStays(a: Bytes, b: Bytes)
    requires a <= b && ServerListLength(a).Some?
    ensures ServerListLength(b) == ServerListLength(a)
  {
    assert a[1..3] == b[1..3];
  }

  /** Relaying changes only the lanes and the calls. */
  lemma RelayedInv(s: Setup, c: Conn, up: Lane, down: Lane, calls: seq<Call>, v: Verdict)
    requires c in Consistent(s) && c.log.status == Alive && c.state.Ready?
    requires c.up.src <= up.src && c.down.src <= down.src && c.log.calls <= calls && v != AssertFails
    requires up.dst + up.buffer == c.up.dst + c.up.buffer + up.src[|c.up.src|..]
    requires down.dst + down.buffer == c.down.dst + c.down.buffer + down.src[|c.down.src|..]
    requires v == Keep ==> Balanced(up) && Balanced(down) && !up.fin && !down.fin
    requires (up.fin ==> up.buffer == []) && (down.fin ==> down.buffer == [])
    ensures Settle(c.(up := up, down := down, log := c.log.(calls := calls)), v) in Consistent(s)
  {
    var c' := c.(up := up, down := down, log := c.log.(calls := calls));
    RelayedStreams(s, c, c');
    RelayedCommon(s, c, c');
    if v == Close {
      DestroyInv(s, c');
    } else {
      RelayingInv(s, c, c');
    }
  }

  lemma RelayedCommon(s: Setup, c: Conn, c': Conn)
    requires c in Consistent(s) && c.log.status == Alive && c.state.Ready?
    requires c' == c.(up := c'.up, down := c'.down, log := c.log.(calls := c'.log.calls))
    requires c.up.src <= c'.up.src && c.log.calls <= c'.log.calls && Delivered(s, c')
    ensures Common(s, c')
  {
    AuthorizedLater(s, c, c');
    TakenLater(s, c, c');
    hide Authorized;
    hide Delivered;
    hide Taken;
  }

  lemma RelayingInv(s: Setup, c: Conn, c': Conn)
    requires c in Consistent(s) && c.log.status == Alive && c.state.Ready? && Common(s, c')
    requires c' == c.(up := c'.up, down := c'.down, log := c.log.(calls := c'.log.calls))
    requires Established(s, c') && Balanced(c'.up) && Balanced(c'.down) && !c'.up.fin && !c'.down.fin
    requires c'.up.dst + c'.up.buffer == Upstream(s, c') && c'.down.dst + c'.down.buffer == Downstream(s, c')
    ensures c' in Consistent(s)
  {
    hide Common;
    assert Inv(s, c');
  }

  lemma RelayedStreams(s: Setup, c: Conn, c': Conn)
    requires Established(s, c) && c'.state.Ready? && c'.log.packets == c.log.packets
    requires c'.log.sentList == c.log.sentList && c'.log.sentHello == c.log.sentHello
             && c'.log.sentPlay == c.log.sentPlay
    requires c.up.src <= c'.up.src && c.down.src <= c'.down.src
    requires c.up.dst + c.up.buffer == Upstream(s, c) && c.down.dst + c.down.buffer == Downstream(s, c)
    requires c'.up.dst + c'.up.buffer == c.up.dst + c.up.buffer + c'.up.src[|c.up.src|..]
    requires c'.down.dst + c'.down.buffer == c.down.dst + c.down.buffer + c'.down.src[|c.down.src|..]
    requires (c'.up.fin ==> c'.up.buffer == []) && (c'.down.fin ==> c'.down.buffer == [])
    ensures Established(s, c') && Skipped(s, c') == Skipped(s, c) && Delivered(s, c')
    ensures c'.up.dst + c'.up.buffer == Upstream(s, c') && c'.down.dst + c'.down.buffer == Downstream(s, c')
  {
    if s.ShowsServerList() {
      ServerListLengthStays(c.down.src, c'.down.src);
    }
    assert c'.up.dst + c'.up.buffer == Upstream(s, c') by {
      Extends(c.log.sentHello + c.log.sentPlay, c.up.src, c'.up.src, HandshakeSize(s));
    }
    assert c'.down.dst + c'.down.buffer == Downstream(s, c') by {
      Extends(c.log.sentList, c.down.src, c'.down.src, Skipped(s, c).value);
    }
  }

  lemma Extends(head: Bytes, a: Bytes, b: Bytes, n: nat)
    requires n <= |a| && a <= b
    ensures head + a[n..] + b[|a|..] == head + b[n..]
  {
    assert b[n..] == a[n..] + b[|a|..];
  }

  lemma ReadyLanes(s: Setup, c: Conn)
    requires c in Consistent(s) && c.log.status == Alive && c.state.Ready?
    ensures Balanced(c.up) && Balanced(c.down) && !c.up.fin && !c.down.fin
  {}

  lemma IncomingRelayInv(s: Setup, c: Conn, ready: Ready, io: Io)
    requires c in Consistent(s) && c.log.status == Alive && c.state.Ready?
    requires (ready.write ==> c.down.write) && (ready.read ==> c.up.read)
    ensures RelayIncoming(c, ready, io) in Consistent(s)
  {
    hide Consistent;
    ReadyLanes(s, c);
    RelayKeeps(c.down, c.up, ready, io);
    var (down, up, v, n) := Relay(c.down, c.up, ready, io);
    hide Relay;
    assert down.src[|c.down.src|..] == [];
    RelayedInv(s, c, up, down, LogIf(c.log.calls, n > 0, ClientBytes(n)), v);
  }

  lemma OutgoingRelayInv(s: Setup, c: Conn, ready: Ready, io: Io)
    requires c in Consistent(s) && c.log.status == Alive && c.state.Ready?
    requires (ready.write ==> c.up.write) && (ready.read ==> c.down.read)
    ensures RelayOutgoing(c, ready, io) in Consistent(s)
  {
    hide Consistent;
    ReadyLanes(s, c);
    RelayKeeps(c.up, c.down, ready, io);
    var (up, down, v, n) := Relay(c.up, c.down, ready, io);
    hide Relay;
    assert up.src[|c.up.src|..] == [];
    RelayedInv(s, c, up, down, LogIf(c.log.calls, n > 0, ServerBytes(n)), v);
  }

  lemma RejectInv(s: Setup, c: Conn, reply: int)
    requires c.log.status == Alive && Common(s, c) && (c.state.Initial? || c.state.CheckCredentials?)
    requires c.down == IDLE && !c.pending.cancel
    ensures Destroy(Reject(c, reply)) in Consistent(s)
  {
    hide Destroy;
    RejectDelivered(s, c, reply);
    AuthorizedLater(s, c, Reject(c, reply));
    TakenLater(s, c, Reject(c, reply));
    hide Authorized;
    hide Delivered;
    hide Taken;
    DestroyInv(s, Reject(c, reply));
  }

  lemma RejectDelivered(s: Setup, c: Conn, reply: int)
    requires (c.state.Initial? || c.state.CheckCredentials?) && c.down == IDLE && Delivered(s, c)
    ensures Delivered(s, Reject(c, reply))
  {
    if reply >= 0 {
      assert [] + Prefix(REJECT, reply) == Prefix(REJECT, reply);
    }
  }

  lemma RejectedInv(s: Setup, c: Conn, io: Io)
    requires c.(pending := c.pending.(cancel := true)) in Consistent(s) && c.log.status == Alive
             && c.state.CheckCredentials? && !c.pending.cancel
    ensures OnCheckCredentials(s, c, false, io) in Consistent(s)
  {
    var r := Charge(Log(c, LoginRejected), 5);
    assert Common(s, r);
    RejectInv(s, r, io.reply);
  }

  /** A connection whose password has just been accepted and charged for. */
  ghost predicate Approved(s: Setup, c: Conn) {
    && c.log.status == Alive && c.state.CheckCredentials? && Common(s, c)
    && c.up == IDLE.(src := c.log.packets) && c.down == IDLE
    && !c.outgoing && !c.pending.connect && !c.pending.timeout && !c.pending.cancel
    && LoginAccepted in c.log.calls
  }

  /** The three ways on from a successful login. */
  lemma AcceptedInv(s: Setup, c: Conn, io: Io)
    requires Approved(s, c)
    ensures s.ShowsServerList() ==> SendServerList(s, c, io.reply) in Consistent(s)
    ensures !s.ShowsServerList() ==>
      c.(state := Connecting, outgoingAddress := Some(s.config.gameServer), up := c.up.(read := true),
          pending := c.pending.(connect := true)) in Consistent(s)
  {
    if !s.ShowsServerList() {
      assert Inv(s, c.(state := Connecting, outgoingAddress := Some(s.config.gameServer), up := c.up.(read := true),
          pending := c.pending.(connect := true)));
    } else if io.reply < 0 {
      DestroyInv(s, c);
    } else {
      ListSentInv(s, c, Prefix(ServerListPacket(s.Names()), io.reply));
    }
  }

  lemma ListSentInv(s: Setup, c: Conn, sent: Bytes)
    requires Approved(s, c) && s.ShowsServerList() && sent <= ServerListPacket(s.Names())
    ensures c.(state := ServerList, up := c.up.(read := true), down := c.down.(dst := c.down.dst + sent),
            pending := c.pending.(timeout := true), log := c.log.(sentList := sent)) in Consistent(s)
  {
    assert Inv(s, c.(state := ServerList, up := c.up.(read := true), down := c.down.(dst := c.down.dst + sent),
        pending := c.pending.(timeout := true), log := c.log.(sentList := sent)));
  }

  lemma ApprovedInv(s: Setup, c: Conn, io: Io)
    requires c.(pending := c.pending.(cancel := true)) in Consistent(s) && c.log.status == Alive
             && c.state.CheckCredentials? && !c.pending.cancel
    ensures OnCheckCredentials(s, c, true, io) in Consistent(s)
  {
    hide SendServerList;
    AcceptedInv(s, Log(Charge(c, 1), LoginAccepted), io);
  }

  lemma CheckCredentialsInv(s: Setup, c: Conn, result: bool, io: Io)
    requires c.(pending := c.pending.(cancel := true)) in Consistent(s) && c.log.status == Alive
             && c.state.CheckCredentials? && !c.pending.cancel
    ensures OnCheckCredentials(s, c, result, io) in Consistent(s)
  {
    hide Consistent;
    if result {
      ApprovedInv(s, c, io);
    } else {
      RejectedInv(s, c, io);
    }
  }

  /** What holds when the last of the 83 bytes has arrived. */
  ghost predicate Complete(s: Setup, c: Conn) {
    && c.log.status == Alive && c.state.Initial? && |c.log.packets| == INITIAL_SIZE
    && c.up == IDLE.(src := c.log.packets) && c.down == IDLE
    && !c.outgoing && !c.pending.connect && !c.pending.timeout && !c.pending.cancel && Taken(s, c)
    && !c.sendPlayServer && c.outgoingAddress == None
  }

  lemma MalformedInv(s: Setup, c: Conn, io: Io)
    requires Complete(s, c)
    requires !WellFormedLogin(c.log.packets) || !ValidUsername(Username(c.log.packets))
    ensures CheckLogin(s, c, io) in Consistent(s)
  {
    var r := Charge(Log(c, LoginMalformed), if WellFormedLogin(c.log.packets) then 8 else 10);
    assert Common(s, r);
    DestroyInv(s, r);
    RejectInv(s, r, io.reply);
  }

  lemma CheckLoginInv(s: Setup, c: Conn, io: Io)
    requires Complete(s, c)
    ensures CheckLogin(s, c, io) in Consistent(s)
  {
    hide Consistent;
    if !WellFormedLogin(c.log.packets) || !ValidUsername(Username(c.log.packets)) {
      MalformedInv(s, c, io);
    } else {
      var a := Log(c.(state := CheckCredentials),
        AskedFor(Credentials(Username(c.log.packets), Password(c.log.packets))));
      AskedInv(s, c, a);
      match io.lookup
      case Throws => RejectInv(s, Charge(a, 2), io.reply);
      case NoDatabase => CheckCredentialsInv(s, a, true, io);
      case Queued =>
    }
  }

  lemma AskedInv(s: Setup, c: Conn, a: Conn)
    requires Complete(s, c) && WellFormedLogin(c.log.packets) && ValidUsername(Username(c.log.packets))
    requires a == Log(c.(state := CheckCredentials),
                      AskedFor(Credentials(Username(c.log.packets), Password(c.log.packets))))
    ensures a.(pending := a.pending.(cancel := true)) in Consistent(s) && Common(s, Charge(a, 2))
  {
    assert Inv(s, a.(pending := a.pending.(cancel := true)));
  }

  lemma ArrivedInv(s: Setup, c: Conn, b: Bytes)
    requires c in Consistent(s) && c.log.status == Alive && c.state.Initial? && |c.log.packets| + |b| <= INITIAL_SIZE
    ensures var c' := c.(up := c.up.(src := c.up.src + b), log := c.log.(packets := c.log.packets + b));
            if |c'.log.packets| < INITIAL_SIZE then c' in Consistent(s)
            else Complete(s, c'.(up := c'.up.(read := false), pending := c'.pending.(timeout := false)))
  {
    var c' := c.(up := c.up.(src := c.up.src + b), log := c.log.(packets := c.log.packets + b));
    if |c'.log.packets| < INITIAL_SIZE {
      assert Inv(s, c');
    }
  }

  lemma LoginPacketsInv(s: Setup, c: Conn, io: Io)
    requires c in Consistent(s) && c.log.status == Alive && c.state.Initial?
    ensures ReceiveLoginPackets(s, c, io) in Consistent(s)
  {
    hide Consistent;
    hide CheckLogin;
    hide Complete;
    PendingIn(s, c);
    match Clip(Input(io.inputs, 0), INITIAL_SIZE - |c.log.packets|)
    case Data(b) =>
      ArrivedInv(s, c, b);
      var c' := c.(up := c.up.(src := c.up.src + b), log := c.log.(packets := c.log.packets + b));
      if |c'.log.packets| == INITIAL_SIZE {
        CheckLoginInv(s, c'.(up := c'.up.(read := false), pending := c'.pending.(timeout := false)), io);
      }
    case _ => DeadInv(s, c, ClientGone);
  }

  lemma PlayServerInv(s: Setup, c: Conn, io: Io)
    requires c in Consistent(s) && c.log.status == Alive && c.state.ServerList?
    ensures ReceivePlayServer(s, c, io) in Consistent(s)
  {
    hide Consistent;
    hide Destroy;
    hide Choice;
    match Clip(Input(io.inputs, 0), PLAY_SERVER_SIZE)
    case Data(b) =>
      if Choice(s, b) == None {
        WrongChoiceInv(s, c, b);
      } else {
        ChosenInv(s, c, b);
      }
    case _ => DeadInv(s, c, ClientGone);
  }

  lemma WrongChoiceInv(s: Setup, c: Conn, b: Bytes)
    requires c in Consistent(s) && c.log.status == Alive && c.state.ServerList?
    ensures Destroy(c.(up := c.up.(src := c.up.src + b))) in Consistent(s)
  {
    hide Destroy;
    var c' := c.(up := c.up.(src := c.up.src + b));
    assert Common(s, c');
    DestroyInv(s, c');
  }

  lemma ChosenInv(s: Setup, c: Conn, b: Bytes)
    requires c in Consistent(s) && c.log.status == Alive && c.state.ServerList? && Choice(s, b) != None
    ensures c.(state := Connecting, sendPlayServer := true, outgoingAddress := Choice(s, b),
               pending := c.pending.(connect := true, timeout := false),
               up := c.up.(src := c.up.src + b, read := false)) in Consistent(s)
  {
    PacketChosen(s, b);
    hide Choice;
    var src := c.up.src + b;
    assert src[INITIAL_SIZE..HandshakeSize(s)] == b;
    assert Inv(s, c.(state := Connecting, sendPlayServer := true, outgoingAddress := Choice(s, b),
                     pending := c.pending.(connect := true, timeout := false),
                     up := c.up.(src := src, read := false)));
  }

  lemma PacketChosen(s: Setup, packet: Bytes)
    requires Choice(s, packet) != None
    ensures |packet| == PLAY_SERVER_SIZE && s.ShowsServerList()
  {}

  /** A connection that gives up while it reads the server's ServerList packet. */
  lemma GiveUpInv(s: Setup, c: Conn, read: Bytes)
    requires c in Consistent(s) && c.log.status == Alive && c.state.SendPlayServer?
    ensures Destroy(c.(down := c.down.(src := read))) in Consistent(s)
  {
    assert Common(s, c.(down := c.down.(src := read)));
    hide Consistent;
    hide Common;
    DestroyInv(s, c.(down := c.down.(src := read)));
  }

  lemma TakenIsServerList(inputs: seq<Received>)
    ensures var (taken, ok) := TakeServerList(inputs);
            ok ==> ServerListLength(taken) == Some(|taken|)
  {
    var (taken, ok) := TakeServerList(inputs);
    if ok {
      assert taken[1..3] == Clip(inputs[1], 2).bytes;
    }
  }

  lemma ServerListInv(s: Setup, c: Conn, io: Io)
    requires c in Consistent(s) && c.log.status == Alive && c.state.SendPlayServer?
    ensures ReceiveServerList(c, io) in Consistent(s)
  {
    hide Consistent;
    hide Destroy;
    var (taken, ok) := TakeServerList(io.inputs);
    TakenIsServerList(io.inputs);
    NothingSkipped(s, c);
    assert [] + taken == taken;
    GiveUpInv(s, c, taken);
    if ok && io.reply >= 0 {
      ReadyInv(s, c, taken, Prefix(PlayServer(0), io.reply));
    }
  }

  lemma NothingSkipped(s: Setup, c: Conn)
    requires c in Consistent(s) && c.log.status == Alive && c.state.SendPlayServer?
    ensures c.down.src == []
  {}

  /** The one step into READY behind a server's ServerList packet. */
  lemma ReadyInv(s: Setup, c: Conn, list: Bytes, sent: Bytes)
    requires c in Consistent(s) && c.log.status == Alive && c.state.SendPlayServer?
    requires ServerListLength(list) == Some(|list|) && sent <= PlayServer(0)
    ensures c.(down := c.down.(src := list), state := State.Ready, up := c.up.(read := true, dst := c.up.dst + sent),
            log := c.log.(sentPlay := sent)) in Consistent(s)
  {
    assert c.up.src[HandshakeSize(s)..] == [];
    assert list[|list|..] == [];
    assert Inv(s, c.(down := c.down.(src := list), state := State.Ready,
        up := c.up.(read := true, dst := c.up.dst + sent), log := c.log.(sentPlay := sent)));
  }

  /** Either way on from a connection attempt that succeeded. */
  lemma EstablishedInv(s: Setup, c: Conn, hello: Bytes)
    requires c in Consistent(s) && c.log.status == Alive && c.state.Connecting?
    requires |c.log.packets| == INITIAL_SIZE && hello <= s.HelloTo(c.log.packets)
    ensures c.(outgoing := true, state := if c.sendPlayServer then SendPlayServer else State.Ready,
               pending := NOTHING,
               up := c.up.(dst := c.up.dst + hello, read := if c.sendPlayServer then c.up.read else true),
               down := c.down.(read := true),
               log := c.log.(sentHello := hello, calls := c.log.calls + [ServerConnected])) in Consistent(s)
  {
    assert c.up.src[HandshakeSize(s)..] == [];
    assert Inv(s, c.(outgoing := true, state := if c.sendPlayServer then SendPlayServer else State.Ready,
                     pending := NOTHING,
                     up := c.up.(dst := c.up.dst + hello, read := if c.sendPlayServer then c.up.read else true),
                     down := c.down.(read := true),
                     log := c.log.(sentHello := hello, calls := c.log.calls + [ServerConnected])));
  }

  lemma ConnectedInv(s: Setup, c: Conn, sent: int)
    requires c in Consistent(s) && c.log.status == Alive && c.state.Connecting?
    ensures OnSocketConnectSuccess(s, c, sent) in Consistent(s)
  {
    hide Consistent;
    PendingIn(s, c);
    if sent <= 0 {
      DeadInv(s, c, ServerFailed);
      assert OnSocketConnectSuccess(s, c, sent) == Destroy(c);
    } else {
      EstablishedInv(s, c, Prefix(s.HelloTo(c.log.packets), sent));
    }
  }

  lemma DeadInv(s: Setup, c: Conn, call: Call)
    requires c in Consistent(s) && c.log.status == Alive
    ensures Destroy(c) in Consistent(s) && Destroy(Log(c, call)) in Consistent(s)
  {
    DestroyInv(s, c);
    assert Common(s, Log(c, call));
    DestroyInv(s, Log(c, call));
  }

  lemma ConnectFailedInv(s: Setup, c: Conn)
    requires c in Consistent(s) && c.log.status == Alive && c.state.Connecting?
    ensures OnSocketConnectError(c) in Consistent(s)
  {
    hide Consistent;
    DeadInv(s, c, ServerFailed);
    PendingIn(s, c);
    assert OnSocketConnectError(c) == Destroy(Log(c, ServerFailed));
  }

  lemma TimeoutInv(s: Setup, c: Conn)
    requires c in Consistent(s) && c.log.status == Alive
    ensures OnTimeout(c) in Consistent(s)
  {
    hide Consistent;
    DeadInv(s, c, Charged(7));
    assert OnTimeout(c) == Destroy(Charge(c, 7));
  }

  lemma AbortInv(s: Setup, c: Conn)
    requires c in Consistent(s) && c.log.status == Alive
    ensures Abort(c) in Consistent(s)
  {
    hide Authorized;
    hide Delivered;
    hide Taken;
    hide Lanes;
    CommonLater(s, c, Abort(c));
    assert Inv(s, Abort(c));
  }

  /** Which sockets and timers a state leaves to the event loop. */
  lemma PendingIn(s: Setup, c: Conn)
    requires c in Consistent(s) && c.log.status == Alive
    ensures Aligned(c) && Sane(c)
    ensures c.up.read ==> c.state.Initial? || c.state.ServerList? || c.state.Connecting? || c.state.Ready?
    ensures c.state.Connecting? ==> (c.up.read <==> !s.ShowsServerList())
    ensures c.down.write || c.up.write ==> c.state.Ready?
    ensures c.state.ServerList? ==> s.ShowsServerList()
  {}

  lemma BalancedIn(s: Setup, c: Conn)
    requires c in Consistent(s) && c.log.status == Alive
    ensures Balanced(c.up) && Balanced(c.down)
  {}

  lemma IncomingInv(s: Setup, c: Conn, ready: Ready, io: Io)
    requires c in Consistent(s) && c.log.status == Alive && Fires(ready)
    requires (ready.write ==> c.down.write) && (ready.read ==> c.up.read)
    ensures OnIncomingReady(s, c, ready, io) in Consistent(s)
  {
    hide Consistent;
    hide ReceiveLoginPackets;
    hide ReceivePlayServer;
    hide RelayIncoming;
    hide Destroy;
    PendingIn(s, c);
    if ready.dead {
      DeadInv(s, c, Charged(4));
    } else {
      match c.state
      case Initial => LoginPacketsInv(s, c, io);
      case ServerList => PlayServerInv(s, c, io);
      case Ready => IncomingRelayInv(s, c, ready, io);
      case _ => AbortInv(s, c);
    }
  }

  lemma OutgoingInv(s: Setup, c: Conn, ready: Ready, io: Io)
    requires c in Consistent(s) && c.log.status == Alive && c.outgoing
    requires (ready.write ==> c.up.write) && (ready.read ==> c.down.read)
    ensures OnOutgoingReady(c, ready, io) in Consistent(s)
  {
    hide Consistent;
    hide ReceiveServerList;
    hide RelayOutgoing;
    hide Destroy;
    PendingIn(s, c);
    if ready.dead {
      DeadInv(s, c, Charged(5));
    } else if c.state.SendPlayServer? {
      ServerListInv(s, c, io);
    } else {
      OutgoingRelayInv(s, c, ready, io);
    }
  }

  lemma StepInv(s: Setup, c: Conn, e: Event)
    requires c in Consistent(s)
    ensures Step(s, c, e) in Consistent(s)
  {
    hide Consistent;
    if Dispatched(c, e) {
      PendingIn(s, c);
      match e
      case Incoming(r, io) => IncomingInv(s, c, Mask(r, c.up.read, c.down.write), io);
      case Outgoing(r, io) => OutgoingInv(s, c, Mask(r, c.down.read, c.up.write), io);
      case Timeout => TimeoutInv(s, c);
      case Checked(result, io) =>
        var cleared := c.pending.(cancel := false);
        assert c.(pending := cleared).(pending := cleared.(cancel := true)) == c;
        CheckCredentialsInv(s, c.(pending := c.pending.(cancel := false)), result, io);
      case Connected(sent) => ConnectedInv(s, c, sent);
      case ConnectFailed => ConnectFailedInv(s, c);
      case Teardown => DeadInv(s, c, ClientGone);
    }
  }

  lemma {:induction false} RunInv(s: Setup, events: seq<Event>)
    ensures Run(s, events) in Consistent(s)
  {
    if events == [] {
      StartInv(s);
    } else {
      RunInv(s, events[..|events| - 1]);
      StepInv(s, Run(s, events[..|events| - 1]), events[|events| - 1]);
    }
  }
}
