// What each event does to a connection, told on the bytes and answers involved:
// which tokens are charged, what is counted, what is sent, and where it leads.
module ProxySteps {
  import opened Packets
  import opened Kernel
  import opened ProxySpec
  import opened ProxyInvariant
  import opened Wire

  /** The last calls of every connection. */
  function Farewell(c: Conn): seq<Call> {
    (if c.pending.cancel then [CancelledJob] else []) + (if c.outgoing then [ServerGone] else []) + [ClientGone]
  }

  /** The connection ended with these calls before the last ones; the client was sent
      `reply`, and then a FIN if `fin`; the game server nothing. */
  predicate Ended(c: Conn, c': Conn, calls: seq<Call>, reply: Bytes, fin: bool) {
    && c'.log.status == Closed && c'.state == c.state && !c'.outgoing && c'.pending == NOTHING
    && c'.log.calls == c.log.calls + calls + Farewell(c)
    && c'.down.dst == c.down.dst + reply && c'.down.fin == (c.down.fin || fin)
    && c'.up.dst == c.up.dst && c'.up.fin == c.up.fin
  }

  lemma DestroyEnds(c: Conn, d: Conn, calls: seq<Call>)
    requires d.log.calls == c.log.calls + calls && d.state == c.state && d.pending.cancel == c.pending.cancel
    requires d.outgoing == c.outgoing && d.down.dst == c.down.dst && d.down.fin == c.down.fin
    requires d.up.dst == c.up.dst && d.up.fin == c.up.fin
    ensures Ended(c, Destroy(d), calls, [], false)
  {
    assert c.down.dst + [] == c.down.dst;
    assert d.log.calls + Farewell(c) == Goodbye(d);
  }

  /** A refusal: 0x82 0x03, as much of it as the kernel takes, and a FIN; nothing if
      the kernel takes an error. */
  lemma RejectEnds(c: Conn, d: Conn, calls: seq<Call>, reply: int)
    requires d.log.calls == c.log.calls + calls && d.state == c.state && d.pending.cancel == c.pending.cancel
    requires d.outgoing == c.outgoing && d.down.dst == c.down.dst && d.down.fin == c.down.fin
    requires d.up.dst == c.up.dst && d.up.fin == c.up.fin
    ensures Ended(c, Destroy(Reject(d, reply)), calls, Refusal(reply), reply >= 0)
  {
    assert c.down.dst + [] == c.down.dst;
    assert Reject(d, reply).log.calls + Farewell(c) == Goodbye(Reject(d, reply));
  }

  function Refusal(reply: int): Bytes { if reply < 0 then [] else Prefix([0x82, 0x03], reply) }

  // ---- The ends that any state may come to ----

  lemma TimeoutSays(s: Setup, c: Conn)
    requires Dispatched(c, Timeout)
    ensures Ended(c, Step(s, c, Timeout), [Charged(7)], [], false)
  {
    hide Destroy;
    DestroyEnds(c, Charge(c.(pending := c.pending.(timeout := false)), 7), [Charged(7)]);
  }

  lemma TeardownSays(s: Setup, c: Conn)
    requires Dispatched(c, Teardown)
    ensures Ended(c, Step(s, c, Teardown), [], [], false)
  {
    hide Destroy;
    assert c.log.calls + [] == c.log.calls;
    DestroyEnds(c, c, []);
  }

  /** A hangup of the client costs 4 tokens before its first packets are complete,
      and nothing later; one of the game server costs 5. */
  lemma HangupSays(s: Setup, c: Conn, e: Event)
    requires Dispatched(c, e) && (e.Incoming? || e.Outgoing?) && e.ready.dead
    requires e.Outgoing? ==> !c.pending.connect
    ensures var cost := if e.Outgoing? then [Charged(5)] else if c.state.Initial? then [Charged(4)] else [];
            Ended(c, Step(s, c, e), cost, [], false)
  {
    hide Destroy;
    assert c.log.calls + [] == c.log.calls;
    DestroyEnds(c, c, []);
    DestroyEnds(c, Charge(c, 4), [Charged(4)]);
    DestroyEnds(c, Charge(c, 5), [Charged(5)]);
  }

  lemma ConnectFailedSays(s: Setup, c: Conn)
    requires Dispatched(c, ConnectFailed)
    ensures Ended(c, Step(s, c, ConnectFailed), [ServerFailed], [], false)
  {
    hide Destroy;
    DestroyEnds(c, Log(c.(pending := c.pending.(connect := false)), ServerFailed), [ServerFailed]);
  }

  // ---- The login ----

  function Asking(client: Bytes): Call
    requires |client| == 83
  {
    AskedFor(Credentials(CString(client[22..52]), CString(client[52..82])))
  }

  /** What a connection has after the client's bytes, before it acts on them. */
  function Having(c: Conn, b: Bytes): Conn {
    c.(up := c.up.(src := c.up.src + b), log := c.log.(packets := c.log.packets + b))
  }

  /** Bytes that do not complete the 83 are kept, and nothing else happens; an error
      or the end of the stream is the end. */
  lemma PartialLoginSays(s: Setup, c: Conn, e: Event)
    requires Dispatched(c, e) && e.Incoming? && c.state.Initial? && !e.ready.dead && !c.pending.connect
    requires e.ready.read && c.up.read
    ensures var input := Clip(Input(e.io.inputs, 0), 83 - |c.log.packets|);
            var c' := Step(s, c, e);
            && (!input.Data? ==> Ended(c, c', [], [], false))
            && (input.Data? && |c.log.packets| + |input.bytes| < 83 ==> c' == Having(c, input.bytes))
  {
    hide Destroy;
    hide CheckLogin;
    assert c.log.calls + [] == c.log.calls;
    DestroyEnds(c, c, []);
  }

  /** The 83 bytes are complete, and READ and the timeout are off. */
  function WithLogin(c: Conn, b: Bytes): Conn {
    Having(c, b).(up := c.up.(src := c.up.src + b, read := false), pending := c.pending.(timeout := false))
  }

  lemma LoginArrived(s: Setup, c: Conn, e: Event, b: Bytes)
    requires Dispatched(c, e) && e.Incoming? && c.state.Initial? && !e.ready.dead && !c.pending.connect
    requires e.ready.read && c.up.read
    requires Clip(Input(e.io.inputs, 0), 83 - |c.log.packets|) == Data(b) && |c.log.packets| + |b| == 83
    ensures Step(s, c, e) == CheckLogin(s, WithLogin(c, b), e.io)
  {
    hide CheckLogin;
    hide Destroy;
  }

  /** The credentials have been asked for. */
  function Asked(d: Conn): Conn
    requires |d.log.packets| == 83
  {
    d.(state := CheckCredentials, log := d.log.(calls := d.log.calls + [Asking(d.log.packets)]))
  }

  lemma CheckSays(s: Setup, d: Conn, io: Io)
    requires |d.log.packets| == 83
    ensures var client := d.log.packets;
            var c' := CheckLogin(s, d, io);
            if client[0] != 0xef || client[21] != 0x80 then Ended(d, c', [LoginMalformed, Charged(10)], [], false)
            else if !HasName(client[22..52]) then
              Ended(d, c', [LoginMalformed, Charged(8)], Refusal(io.reply), io.reply >= 0)
            else
              match io.lookup
              case Queued => c' == Asked(d).(pending := d.pending.(cancel := true))
              case Throws => Ended(Asked(d), c', [Charged(2)], Refusal(io.reply), io.reply >= 0)
              case NoDatabase => c' == OnCheckCredentials(s, Asked(d), true, io)
  {
    hide Destroy;
    hide OnCheckCredentials;
    hide Reject;
    hide Ended;
    hide ValidUsername;
    hide HasName;
    hide CString;
    NameSays(d.log.packets[22..52]);
    assert d.log.calls + [LoginMalformed] + [Charged(10)] == d.log.calls + [LoginMalformed, Charged(10)];
    assert d.log.calls + [LoginMalformed] + [Charged(8)] == d.log.calls + [LoginMalformed, Charged(8)];
    DestroyEnds(d, Charge(Log(d, LoginMalformed), 10), [LoginMalformed, Charged(10)]);
    RejectEnds(d, Charge(Log(d, LoginMalformed), 8), [LoginMalformed, Charged(8)], io.reply);
    RejectEnds(Asked(d), Charge(Asked(d), 2), [Charged(2)], io.reply);
  }

  /** Complete 83 bytes: 10 tokens for other packets than SEED and ACCOUNT_LOGIN, 8 and
      a refusal for an unprintable name; otherwise the lookup decides: 2 tokens and a
      refusal for an exception, waiting for the job, or the same as after a job that
      has accepted. */
  lemma LoginDecided(s: Setup, c: Conn, e: Event, b: Bytes)
    requires Dispatched(c, e) && e.Incoming? && c.state.Initial? && !e.ready.dead && !c.pending.connect
    requires e.ready.read && c.up.read
    requires Clip(Input(e.io.inputs, 0), 83 - |c.log.packets|) == Data(b) && |c.log.packets| + |b| == 83
    ensures var d := WithLogin(c, b);
            var client, io, c' := d.log.packets, e.io, Step(s, c, e);
            if client[0] != 0xef || client[21] != 0x80 then Ended(d, c', [LoginMalformed, Charged(10)], [], false)
            else if !HasName(client[22..52]) then
              Ended(d, c', [LoginMalformed, Charged(8)], Refusal(io.reply), io.reply >= 0)
            else
              match io.lookup
              case Queued => c' == Asked(d).(pending := d.pending.(cancel := true))
              case Throws => Ended(Asked(d), c', [Charged(2)], Refusal(io.reply), io.reply >= 0)
              case NoDatabase => c' == OnCheckCredentials(s, Asked(d), true, io)
  {
    hide *;
    LoginArrived(s, c, e, b);
    WithLoginHas(c, b);
    CheckSays(s, WithLogin(c, b), e.io);
  }

  lemma WithLoginHas(c: Conn, b: Bytes)
    ensures WithLogin(c, b).log.packets == c.log.packets + b
  {}

  // ---- The answer to the login ----

  /** A refusal costs 5 tokens.  Acceptance costs 1; then the list is sent, and READ
      and the timeout are on, unless sending fails; or the game server is contacted. */
  lemma AnsweredSays(s: Setup, c: Conn, result: bool, io: Io)
    ensures var d := c.(pending := c.pending.(cancel := false));
            var c' := OnCheckCredentials(s, c, result, io);
            if !result then Ended(d, c', [LoginRejected, Charged(5)], Refusal(io.reply), io.reply >= 0)
            else
              var accepted := d.(log := d.log.(calls := d.log.calls + [Charged(1), LoginAccepted]));
              if s.config.serverList == [] then
                c' == accepted.(state := Connecting, outgoingAddress := Some(s.config.gameServer),
                                pending := accepted.pending.(connect := true), up := accepted.up.(read := true))
              else if io.reply < 0 then Ended(d, c', [Charged(1), LoginAccepted], [], false)
              else
                var sent := Prefix(ListBytes(s.config.serverList), io.reply);
                c' == accepted.(state := ServerList, pending := accepted.pending.(timeout := true),
                                up := accepted.up.(read := true),
                                down := accepted.down.(dst := c.down.dst + sent),
                                log := accepted.log.(sentList := sent))
  {
    hide Destroy;
    hide Reject;
    hide ServerListPacket;
    hide ListByte;
    PacketIsList(s);
    var d := c.(pending := c.pending.(cancel := false));
    assert c.log.calls + [LoginRejected] + [Charged(5)] == c.log.calls + [LoginRejected, Charged(5)];
    assert c.log.calls + [Charged(1)] + [LoginAccepted] == c.log.calls + [Charged(1), LoginAccepted];
    RejectEnds(d, Charge(Log(d, LoginRejected), 5), [LoginRejected, Charged(5)], io.reply);
    DestroyEnds(d, Log(Charge(d, 1), LoginAccepted), [Charged(1), LoginAccepted]);
  }

  // ---- The choice and the connection ----

  /** Three bytes 0xa0 and an index in range lead to that server; anything else is
      the end. */
  lemma ChoiceDecided(s: Setup, c: Conn, e: Event)
    requires Dispatched(c, e) && e.Incoming? && c.state.ServerList? && !e.ready.dead && !c.pending.connect
    requires e.ready.read && c.up.read
    ensures var input := Clip(Input(e.io.inputs, 0), 3);
            var c' := Step(s, c, e);
            if input.Data? && |input.bytes| == 3 && input.bytes[0] == 0xa0
               && Number(input.bytes[1], input.bytes[2]) < |s.config.serverList|
            then
              c' == c.(state := Connecting, sendPlayServer := true,
                       outgoingAddress := Some(s.config.serverList[Number(input.bytes[1], input.bytes[2])].address),
                       pending := c.pending.(connect := true, timeout := false),
                       up := c.up.(src := c.up.src + input.bytes, read := false))
            else Ended(c, c', [], [], false)
  {
    hide Destroy;
    hide Choice;
    assert c.log.calls + [] == c.log.calls;
    DestroyEnds(c, c, []);
    var input := Clip(Input(e.io.inputs, 0), 3);
    if input.Data? {
      ChoiceSays(s, input.bytes);
      DestroyEnds(c, c.(up := c.up.(src := c.up.src + input.bytes)), []);
    }
  }

  /** A connection, once the kernel takes something of the greeting. */
  lemma ConnectedSays(s: Setup, c: Conn, sent: int)
    requires Dispatched(c, Connected(sent))
    ensures var c' := Step(s, c, Connected(sent));
            if sent <= 0 then Ended(c, c', [], [], false)
            else
              var greeting := Prefix(Greeting(s, c.log.packets), sent);
              c' == c.(outgoing := true, pending := c.pending.(connect := false),
                       state := if c.sendPlayServer then SendPlayServer else State.Ready,
                       up := c.up.(dst := c.up.dst + greeting, read := c.up.read || !c.sendPlayServer),
                       down := c.down.(read := true),
                       log := c.log.(sentHello := greeting, calls := c.log.calls + [ServerConnected]))
  {
    hide Destroy;
    hide Hello;
    hide Greeting;
    HelloIsGreeting(s, c.log.packets);
    assert c.log.calls + [] == c.log.calls;
    DestroyEnds(c, c.(pending := c.pending.(connect := false)), []);
  }

  /** A whole ServerList packet is dropped and answered with 0xa0 0 0, as much of it
      as the kernel takes; then the relay begins.  Otherwise, the end. */
  lemma ServerListSays(s: Setup, c: Conn, e: Event)
    requires Dispatched(c, e) && e.Outgoing? && c.state.SendPlayServer? && !e.ready.dead && !c.pending.connect
    ensures var (taken, ok) := TakeServerList(e.io.inputs);
            var c' := Step(s, c, e);
            if !ok || e.io.reply < 0 then Ended(c, c', [], [], false)
            else
              var sent := Prefix([0xa0, 0, 0], e.io.reply);
              c' == c.(state := State.Ready, up := c.up.(read := true, dst := c.up.dst + sent),
                       down := c.down.(src := c.down.src + taken), log := c.log.(sentPlay := sent))
  {
    hide Destroy;
    hide TakeServerList;
    assert c.log.calls + [] == c.log.calls;
    assert PlayServer(0) == [0xa0, 0, 0];
    DestroyEnds(c, c.(down := c.down.(src := c.down.src + TakeServerList(e.io.inputs).0)), []);
  }

  // ---- The relay ----

  /** A pipe is drained by as many bytes as the destination takes, in order: READ is
      off at its source and WRITE on exactly while something is left; an error, or a
      splice that moves nothing, is the end. */
  lemma SendSays(l: Lane, r: Sent)
    requires l.buffer != []
    ensures var (l', v) := SpliceSend(l, r);
            match r
            case Took(n) =>
              if n == 0 then (l', v) == (l, Close)
              else if n >= |l.buffer| then (l', v) == (l.(dst := l.dst + l.buffer, buffer := [], write := false), Keep)
              else
                && v == Keep
                && l' == l.(dst := l.dst + l.buffer[..n], buffer := l.buffer[n..], read := false, write := true)
            case WouldBlock => (l', v) == (l.(read := false, write := true), Keep)
            case Broken => (l', v) == (l, Close)
  {}

  /** A source that is ready is read once, for up to a gigabyte, and what it gave is
      sent on at once; its end is passed on as a FIN. */
  lemma ReceiveSays(l: Lane, r: Received, forward: Sent)
    requires Balanced(l) && l.read
    ensures var (l', v, n) := SpliceReceive(l, r, forward);
            match r
            case Data(b) =>
              if b == [] then (l', v, n) == (l, Keep, 0)
              else
                var got := Prefix(b, 0x4000_0000);
                (l', v) == SpliceSend(l.(src := l.src + got, buffer := got), forward) && n == |got|
            case Eof => (l', v, n) == (l.(fin := true), Close, 0)
            case Again => (l', v, n) == (l, Keep, 0)
            case Failed => (l', v, n) == (l, Close, 0)
  {
    match r
    case Data(b) =>
      assert [] + Prefix(b, 0x4000_0000) == Prefix(b, 0x4000_0000);
    case _ =>
  }

  /** The lanes after a socket was ready: it is sent what waits for it, and only if
      that did not fail, it is read. */
  function Relayed(drained: Lane, filled: Lane, ready: Ready, io: Io): (Lane, Lane, Verdict, nat) {
    var sent := if ready.write then SpliceSend(drained, io.drain) else (drained, Keep);
    var got := if ready.read then SpliceReceive(filled, Input(io.inputs, 0), io.forward) else (filled, Keep, 0);
    if sent.1 == Close then (sent.0, filled, Close, 0) else (sent.0, got.0, got.1, got.2)
  }

  /** The connection with its lanes after that, and with what was read counted. */
  function Moved(c: Conn, incoming: bool, ready: Ready, io: Io): (Conn, Verdict) {
    if incoming then
      var (down, up, v, n) := Relayed(c.down, c.up, ready, io);
      (c.(up := up, down := down,
          log := c.log.(calls := c.log.calls + if n == 0 then [] else [ClientBytes(n)])), v)
    else
      var (up, down, v, n) := Relayed(c.up, c.down, ready, io);
      (c.(up := up, down := down,
          log := c.log.(calls := c.log.calls + if n == 0 then [] else [ServerBytes(n)])), v)
  }

  /** What is ready of what is scheduled. */
  function Masked(c: Conn, e: Event): Ready
    requires e.Incoming? || e.Outgoing?
  {
    if e.Incoming? then Mask(e.ready, c.up.read, c.down.write) else Mask(e.ready, c.down.read, c.up.write)
  }

  /** Relaying goes on, or a failure on either side ends both. */
  lemma RelaySays(s: Setup, c: Conn, e: Event)
    requires c in Consistent(s) && Dispatched(c, e) && (e.Incoming? || e.Outgoing?) && c.state.Ready? && !e.ready.dead
    ensures var (d, v) := Moved(c, e.Incoming?, Masked(c, e), e.io);
            if v == Keep then Step(s, c, e) == d else Ended(d, Step(s, c, e), [], [], false)
  {
    hide Consistent;
    hide Destroy;
    hide Ended;
    hide Relay;
    hide Relayed;
    PendingIn(s, c);
    ReadyLanes(s, c);
    var m := Masked(c, e);
    if e.Incoming? {
      RelayIsRelayed(c.down, c.up, m, e.io);
    } else {
      RelayIsRelayed(c.up, c.down, m, e.io);
    }
    var d := Moved(c, e.Incoming?, m, e.io).0;
    assert c.log.calls + [] == c.log.calls && d.log.calls + [] == d.log.calls;
    DestroyEnds(d, d, []);
  }

  lemma RelayIsRelayed(drained: Lane, filled: Lane, m: Ready, io: Io)
    requires Balanced(drained) && Balanced(filled) && (m.write ==> drained.write) && (m.read ==> filled.read)
    ensures Relay(drained, filled, m, io) == Relayed(drained, filled, m, io)
    ensures Relay(drained, filled, m, io).2 != AssertFails
  {
    RelayKeeps(drained, filled, m, io);
    if m.write {
      SpliceSendKeeps(drained, io.drain);
    }
  }
}
