// The counters of src/Instance.hxx and the token bucket charges, as the sum of
// the calls that connections make; and what every run of the whole instance
// keeps true of them.
module Metrics {
  import opened Packets
  import opened Kernel
  import opened ProxySpec
  import opened ProxyInvariant
  import Limiter

  datatype Tally = Tally(
    clients: int, accepted: int, servers: int, established: int, failed: int,
    logins: int, rejected: int, malformed: int,
    clientBytes: int, serverBytes: int, tokens: int, cancelled: int)

  const ZERO := Tally(0, 0, 0, 0, 0, 0, 0, 0, 0, 0, 0, 0)

  function Add(t: Tally, call: Call): Tally {
    match call
    case Charged(n) => t.(tokens := t.tokens + n)
    case AskedFor(_) => t
    case CancelledJob => t.(cancelled := t.cancelled + 1)
    case ClientAccepted => t.(clients := t.clients + 1, accepted := t.accepted + 1)
    case ClientGone => t.(clients := t.clients - 1)
    case ServerConnected => t.(servers := t.servers + 1, established := t.established + 1)
    case ServerGone => t.(servers := t.servers - 1)
    case ServerFailed => t.(failed := t.failed + 1)
    case LoginAccepted => t.(logins := t.logins + 1)
    case LoginRejected => t.(rejected := t.rejected + 1)
    case LoginMalformed => t.(malformed := t.malformed + 1)
    case ClientBytes(n) => t.(clientBytes := t.clientBytes + n)
    case ServerBytes(n) => t.(serverBytes := t.serverBytes + n)
  }

  function AddAll(t: Tally, calls: seq<Call>): Tally {
    if calls == [] then t else Add(AddAll(t, calls[..|calls| - 1]), calls[|calls| - 1])
  }

  lemma AddOne(t: Tally, calls: seq<Call>, call: Call)
    ensures AddAll(t, calls + [call]) == Add(AddAll(t, calls), call)
  {
    assert (calls + [call])[..|calls|] == calls;
  }

  // ---- One connection ----

  /** The client's bytes that were relayed, rather than part of the handshake. */
  function Relayed(skipped: nat, c: Conn, l: Lane): int {
    if c.state.Ready? then |l.src| - skipped else 0
  }

  ghost function SkippedBytes(s: Setup, c: Conn): nat {
    if Skipped(s, c).Some? then Skipped(s, c).value else 0
  }

  /** What a connection has contributed while it lives. */
  ghost function Expected(s: Setup, c: Conn): Tally {
    var server := if c.outgoing then 1 else 0;
    var login := if LoggedIn(c) then 1 else 0;
    Tally(1, 1, server, server, 0, login, 0, 0,
          Relayed(HandshakeSize(s), c, c.up), Relayed(SkippedBytes(s, c), c, c.down), login, 0)
  }

  /** What it may have contributed in the end: it is no longer counted, the
      outcomes of its login exclude each other, only an accepted login leads to a
      server, it charged its client at most 10 tokens and cancelled at most one job. */
  ghost predicate Final(s: Setup, c: Conn, t: Tally) {
    && t.clients == t.servers == 0 && t.accepted == 1
    && 0 <= t.established && 0 <= t.failed && t.established + t.failed <= t.logins
    && 0 <= t.rejected && 0 <= t.malformed && t.logins + t.rejected + t.malformed <= 1
    && t.clientBytes == Relayed(HandshakeSize(s), c, c.up)
    && t.serverBytes == Relayed(SkippedBytes(s, c), c, c.down)
    && 0 <= t.tokens <= 10 && 0 <= t.cancelled <= 1
  }

  ghost predicate Counted(s: Setup, c: Conn) {
    var t := AddAll(ZERO, c.log.calls);
    if c.log.status == Closed then Final(s, c, t) else t == Expected(s, c) && (c.outgoing ==> LoggedIn(c))
  }

  /** The destructor's own calls complete such a tally. */
  ghost predicate MayEnd(s: Setup, c: Conn, t: Tally) {
    && t.clients == 1 && t.servers == (if c.outgoing then 1 else 0) && t.cancelled == 0
    && Final(s, c, t.(clients := 0, servers := 0))
  }

  /** The destructor's calls. */
  lemma GoodbyeAdds(c: Conn)
    ensures var t := AddAll(ZERO, c.log.calls);
            AddAll(ZERO, Goodbye(c)) == t.(clients := t.clients - 1,
              servers := t.servers - (if c.outgoing then 1 else 0),
              cancelled := t.cancelled + (if c.pending.cancel then 1 else 0))
  {
    hide AddAll;
    AddOne(ZERO, c.log.calls, CancelledJob);
    var calls1 := LogIf(c.log.calls, c.pending.cancel, CancelledJob);
    AddOne(ZERO, calls1, ServerGone);
    AddOne(ZERO, LogIf(calls1, c.outgoing, ServerGone), ClientGone);
  }

  lemma DestroyCounts(s: Setup, c: Conn)
    requires MayEnd(s, c, AddAll(ZERO, c.log.calls))
    ensures Counted(s, Destroy(c))
  {
    hide AddAll;
    hide Skipped;
    GoodbyeAdds(c);
    hide Goodbye;
    SameSkipped(s, c, Destroy(c));
    hide SkippedBytes;
  }

  lemma SameSkipped(s: Setup, c: Conn, c': Conn)
    requires c'.down.src == c.down.src
    ensures SkippedBytes(s, c') == SkippedBytes(s, c)
  {}

  /** Until relaying, only the control state matters. */
  lemma NotRelayed(s: Setup, c: Conn, c': Conn, t: Tally)
    requires !c.state.Ready? && !c'.state.Ready? && c'.outgoing == c.outgoing
    ensures MayEnd(s, c, t) <==> MayEnd(s, c', t)
  {}

  /** The ends that charge up to 9 tokens, or nothing. */
  lemma DeadCounts(s: Setup, c: Conn, n: nat)
    requires c.log.status == Alive && Counted(s, c) && n <= 9
    ensures Counted(s, Destroy(c)) && Counted(s, Destroy(Charge(c, n)))
  {
    hide Destroy;
    hide Skipped;
    hide SkippedBytes;
    hide AddAll;
    AddOne(ZERO, c.log.calls, Charged(n));
    SameSkipped(s, c, Charge(c, n));
    DestroyCounts(s, c);
    DestroyCounts(s, Charge(c, n));
  }

  /** The ends that answer the client first. */
  lemma RejectCounts(s: Setup, c: Conn, reply: int)
    requires !c.state.Ready? && MayEnd(s, c, AddAll(ZERO, c.log.calls))
    ensures Counted(s, Destroy(c)) && Counted(s, Destroy(Reject(c, reply)))
  {
    hide Destroy;
    hide AddAll;
    hide MayEnd;
    hide Counted;
    NotRelayed(s, c, Reject(c, reply), AddAll(ZERO, c.log.calls));
    DestroyCounts(s, c);
    DestroyCounts(s, Reject(c, reply));
  }

  /** An end before the login was accepted: two more calls at most. */
  lemma RefusedCounts(s: Setup, c: Conn, calls: seq<Call>, reply: int)
    requires c.log.status == Alive && !LoggedIn(c) && Counted(s, c)
    requires calls in [[Charged(2)], [LoginMalformed, Charged(8)], [LoginMalformed, Charged(10)],
             [LoginRejected, Charged(5)]]
    ensures var c' := c.(log := c.log.(calls := c.log.calls + calls));
            Counted(s, Destroy(c')) && Counted(s, Destroy(Reject(c', reply)))
  {
    hide Destroy;
    hide AddAll;
    hide Reject;
    hide Skipped;
    hide SkippedBytes;
    var c' := c.(log := c.log.(calls := c.log.calls + calls));
    AddOne(ZERO, c.log.calls, calls[0]);
    if |calls| == 2 {
      assert c'.log.calls == c.log.calls + [calls[0]] + [calls[1]];
      AddOne(ZERO, c.log.calls + [calls[0]], calls[1]);
    }
    assert MayEnd(s, c', AddAll(ZERO, c'.log.calls));
    RejectCounts(s, c', reply);
  }

  lemma AcceptedCounts(s: Setup, c: Conn, io: Io)
    requires c.log.status == Alive && c.state.CheckCredentials? && Counted(s, c)
    ensures Counted(s, OnCheckCredentials(s, c, true, io))
  {
    hide Destroy;
    hide AddAll;
    hide Skipped;
    hide SkippedBytes;
    hide ServerListPacket;
    AddOne(ZERO, c.log.calls, Charged(1));
    AddOne(ZERO, c.log.calls + [Charged(1)], LoginAccepted);
    DestroyCounts(s, Log(Charge(c.(pending := c.pending.(cancel := false)), 1), LoginAccepted));
  }

  lemma CheckCounts(s: Setup, c: Conn, result: bool, io: Io)
    requires c.log.status == Alive && c.state.CheckCredentials? && Counted(s, c)
    ensures Counted(s, OnCheckCredentials(s, c, result, io))
  {
    hide Destroy;
    hide AddAll;
    hide Counted;
    hide Expected;
    StillCounted(s, c);
    if result {
      AcceptedCounts(s, c, io);
    } else {
      var c := c.(pending := c.pending.(cancel := false));
      RefusedCounts(s, c, [LoginRejected, Charged(5)], io.reply);
      assert c.log.calls + [LoginRejected] + [Charged(5)] == c.log.calls + [LoginRejected, Charged(5)];
    }
  }

  lemma StillCounted(s: Setup, c: Conn)
    requires c.log.status == Alive && !c.state.Ready? && Counted(s, c)
    ensures Counted(s, c.(pending := c.pending.(cancel := false)))
  {}

  lemma CheckLoginCounts(s: Setup, c: Conn, io: Io)
    requires c.log.status == Alive && c.state.Initial? && Counted(s, c) && |c.log.packets| == INITIAL_SIZE
    ensures Counted(s, CheckLogin(s, c, io))
  {
    hide Destroy;
    hide Reject;
    hide OnCheckCredentials;
    hide AddAll;
    hide Counted;
    hide Expected;
    hide WellFormedLogin;
    hide ValidUsername;
    hide Username;
    hide Password;
    StillCounted(s, c);
    RefusedCounts(s, c, [LoginMalformed, Charged(10)], io.reply);
    RefusedCounts(s, c, [LoginMalformed, Charged(8)], io.reply);
    var asked := AskedFor(Credentials(Username(c.log.packets), Password(c.log.packets)));
    var a := Log(c.(state := CheckCredentials), asked);
    assert c.log.calls + [LoginMalformed] + [Charged(8)] == c.log.calls + [LoginMalformed, Charged(8)];
    assert c.log.calls + [LoginMalformed] + [Charged(10)] == c.log.calls + [LoginMalformed, Charged(10)];
    AskedCounts(s, c, asked);
    RefusedCounts(s, a, [Charged(2)], io.reply);
    CheckCounts(s, a, true, io);
  }

  lemma AskedCounts(s: Setup, c: Conn, asked: Call)
    requires c.log.status == Alive && c.state.Initial? && Counted(s, c) && asked.AskedFor?
    ensures var a := Log(c.(state := CheckCredentials), asked);
            && Counted(s, a) && Counted(s, a.(pending := a.pending.(cancel := true)))
  {
    hide AddAll;
    hide SkippedBytes;
    AddOne(ZERO, c.log.calls, asked);
  }

  /** The client's bytes are not counted before relaying. */
  lemma ReadCounts(s: Setup, c: Conn, c': Conn)
    requires c.log.status == c'.log.status == Alive && c'.state == c.state && !c.state.Ready? && Counted(s, c)
    requires c'.outgoing == c.outgoing && c'.log.calls == c.log.calls
    ensures Counted(s, c') && Counted(s, Destroy(c'))
  {
    hide Skipped;
    hide Destroy;
    DestroyCounts(s, c');
  }

  lemma LoginPacketsCount(s: Setup, c: Conn, io: Io)
    requires c.log.status == Alive && c.state.Initial? && Counted(s, c) && |c.log.packets| < INITIAL_SIZE
    ensures Counted(s, ReceiveLoginPackets(s, c, io))
  {
    hide Destroy;
    hide CheckLogin;
    hide Counted;
    ReadCounts(s, c, c);
    var input := Clip(Input(io.inputs, 0), INITIAL_SIZE - |c.log.packets|);
    if input.Data? {
      var c' := c.(up := c.up.(src := c.up.src + input.bytes), log := c.log.(packets := c.log.packets + input.bytes));
      ReadCounts(s, c, c');
      var c'' := c'.(up := c'.up.(read := false), pending := c'.pending.(timeout := false));
      ReadCounts(s, c', c'');
      if |c'.log.packets| == INITIAL_SIZE {
        CheckLoginCounts(s, c'', io);
      }
    }
  }

  lemma PlayServerCounts(s: Setup, c: Conn, io: Io)
    requires c.log.status == Alive && c.state.ServerList? && Counted(s, c)
    ensures Counted(s, ReceivePlayServer(s, c, io))
  {
    hide Destroy;
    hide Choice;
    hide Skipped;
    hide AddAll;
    ReadCounts(s, c, c);
    var input := Clip(Input(io.inputs, 0), PLAY_SERVER_SIZE);
    if input.Data? {
      ReadCounts(s, c, c.(up := c.up.(src := c.up.src + input.bytes)));
    }
  }

  /** What the invariant says about the byte counters where relaying begins. */
  lemma BeforeRelaying(s: Setup, c: Conn)
    requires c in Consistent(s) && c.log.status == Alive && (c.state.SendPlayServer? || c.state.Connecting?)
    ensures c.down.src == [] && |c.up.src| == HandshakeSize(s) && |c.log.packets| == INITIAL_SIZE
    ensures c.sendPlayServer <==> s.ShowsServerList()
    ensures c.state.SendPlayServer? ==> c.sendPlayServer
  {}

  lemma ServerListCounts(s: Setup, c: Conn, io: Io)
    requires c in Consistent(s) && c.log.status == Alive && c.state.SendPlayServer? && Counted(s, c)
    ensures Counted(s, ReceiveServerList(c, io))
  {
    hide Consistent;
    hide Destroy;
    hide TakeServerList;
    hide AddAll;
    BeforeRelaying(s, c);
    var (taken, ok) := TakeServerList(io.inputs);
    assert [] + taken == taken;
    TakenIsServerList(io.inputs);
    hide ServerListLength;
    ReadCounts(s, c, c.(down := c.down.(src := taken)));
  }

  lemma ConnectedCounts(s: Setup, c: Conn, sent: int)
    requires c in Consistent(s) && c.log.status == Alive && c.state.Connecting? && !c.outgoing && Counted(s, c)
    ensures Counted(s, OnSocketConnectSuccess(s, c, sent))
  {
    hide Consistent;
    hide Destroy;
    hide AddAll;
    hide Hello;
    BeforeRelaying(s, c);
    hide ServerListLength;
    AddOne(ZERO, c.log.calls, ServerConnected);
    ReadCounts(s, c, c.(pending := c.pending.(connect := false)));
  }

  lemma ConnectFailedCounts(s: Setup, c: Conn)
    requires c.log.status == Alive && c.state.Connecting? && !c.outgoing && Counted(s, c)
    ensures Counted(s, OnSocketConnectError(c))
  {
    hide Destroy;
    hide AddAll;
    hide Skipped;
    hide SkippedBytes;
    AddOne(ZERO, c.log.calls, ServerFailed);
    DestroyCounts(s, Log(c.(pending := c.pending.(connect := false)), ServerFailed));
  }

  lemma EstablishedIn(s: Setup, c: Conn)
    requires c in Consistent(s) && c.state.Ready?
    ensures Established(s, c)
  {}

  /** A server list once complete does not change. */
  lemma SkippedStays(s: Setup, c: Conn, c': Conn)
    requires c in Consistent(s) && c.state.Ready? && c.down.src <= c'.down.src
    ensures SkippedBytes(s, c') == SkippedBytes(s, c)
  {
    hide Consistent;
    EstablishedIn(s, c);
    if s.ShowsServerList() {
      ServerListLengthStays(c.down.src, c'.down.src);
    }
  }

  /** Relaying counts the bytes it reads, once. */
  lemma RelayCounts(s: Setup, c: Conn, up: Lane, down: Lane, calls: seq<Call>, v: Verdict)
    requires c in Consistent(s) && c.log.status == Alive && c.state.Ready? && Counted(s, c) && v != AssertFails
    requires c.up.src <= up.src && c.down.src <= down.src
    requires var (n, m) := (|up.src| - |c.up.src|, |down.src| - |c.down.src|);
             || (c.down.src == down.src && calls == LogIf(c.log.calls, n > 0, ClientBytes(n)))
             || (c.up.src == up.src && calls == LogIf(c.log.calls, m > 0, ServerBytes(m)))
    ensures Counted(s, Settle(c.(up := up, down := down, log := c.log.(calls := calls)), v))
  {
    hide Consistent;
    hide Destroy;
    hide AddAll;
    hide SkippedBytes;
    var c' := c.(up := up, down := down, log := c.log.(calls := calls));
    SkippedStays(s, c, c');
    AddOne(ZERO, c.log.calls, ClientBytes(|up.src| - |c.up.src|));
    AddOne(ZERO, c.log.calls, ServerBytes(|down.src| - |c.down.src|));
    assert Counted(s, c');
    DestroyCounts(s, c');
  }

  lemma RelaysCount(s: Setup, c: Conn, ready: Ready, io: Io)
    requires c in Consistent(s) && c.log.status == Alive && c.state.Ready? && Counted(s, c)
    ensures (ready.write ==> c.down.write) && (ready.read ==> c.up.read) ==> Counted(s, RelayIncoming(c, ready, io))
    ensures (ready.write ==> c.up.write) && (ready.read ==> c.down.read) ==> Counted(s, RelayOutgoing(c, ready, io))
  {
    hide Consistent;
    hide Settle;
    hide Counted;
    ReadyLanes(s, c);
    if (ready.write ==> c.down.write) && (ready.read ==> c.up.read) {
      RelayKeeps(c.down, c.up, ready, io);
      var (down, up, v, n) := Relay(c.down, c.up, ready, io);
      RelayCounts(s, c, up, down, LogIf(c.log.calls, n > 0, ClientBytes(n)), v);
    }
    if (ready.write ==> c.up.write) && (ready.read ==> c.down.read) {
      RelayKeeps(c.up, c.down, ready, io);
      var (up, down, v, n) := Relay(c.up, c.down, ready, io);
      RelayCounts(s, c, up, down, LogIf(c.log.calls, n > 0, ServerBytes(n)), v);
    }
  }

  lemma AbortCounts(s: Setup, c: Conn)
    requires c.log.status == Alive && Counted(s, c)
    ensures Counted(s, Abort(c))
  {
    hide AddAll;
    SameSkipped(s, c, Abort(c));
    hide SkippedBytes;
  }

  lemma ReadyCounts(s: Setup, c: Conn, ready: Ready, io: Io)
    requires c in Consistent(s) && c.log.status == Alive && Counted(s, c) && Fires(ready)
    ensures (ready.read ==> c.up.read) && (ready.write ==> c.down.write)
            ==> Counted(s, OnIncomingReady(s, c, ready, io))
    ensures c.outgoing && (ready.read ==> c.down.read) && (ready.write ==> c.up.write)
            ==> Counted(s, OnOutgoingReady(c, ready, io))
  {
    hide Consistent;
    hide Counted;
    hide Destroy;
    hide ReceiveLoginPackets;
    hide ReceivePlayServer;
    hide ReceiveServerList;
    hide RelayIncoming;
    hide RelayOutgoing;
    PendingIn(s, c);
    DeadCounts(s, c, 4);
    DeadCounts(s, c, 5);
    AbortCounts(s, c);
    match c.state
    case Initial => LoginPacketsCount(s, c, io);
    case ServerList => PlayServerCounts(s, c, io);
    case SendPlayServer => ServerListCounts(s, c, io);
    case Ready => RelaysCount(s, c, ready, io);
    case _ =>
  }

  lemma TimeoutCounts(s: Setup, c: Conn)
    requires c.log.status == Alive && c.pending.timeout && Counted(s, c)
    requires !c.state.Ready?
    ensures Counted(s, OnTimeout(c))
  {
    hide Destroy;
    hide Counted;
    var c' := c.(pending := c.pending.(timeout := false));
    ReadCounts(s, c, c');
    DeadCounts(s, c', 7);
  }

  lemma StepCounts(s: Setup, c: Conn, e: Event)
    requires c in Consistent(s) && Counted(s, c)
    ensures Counted(s, Step(s, c, e))
  {
    hide Consistent;
    hide Counted;
    hide Destroy;
    hide OnIncomingReady;
    hide OnOutgoingReady;
    hide OnCheckCredentials;
    hide OnSocketConnectSuccess;
    hide OnSocketConnectError;
    if Dispatched(c, e) {
      PendingIn(s, c);
      match e
      case Incoming(r, io) => ReadyCounts(s, c, Mask(r, c.up.read, c.down.write), io);
      case Outgoing(r, io) => ReadyCounts(s, c, Mask(r, c.down.read, c.up.write), io);
      case Timeout => TimeoutCounts(s, c);
      case Checked(result, io) => CheckCounts(s, c, result, io);
      case Connected(sent) => ConnectedCounts(s, c, sent);
      case ConnectFailed => ConnectFailedCounts(s, c);
      case Teardown => DeadCounts(s, c, 0);
    }
  }

  /** On every run: what a connection has added to each counter. */
  lemma {:induction false} RunCounts(s: Setup, events: seq<Event>)
    ensures Counted(s, Run(s, events))
  {
    if events == [] {
      assert AddAll(ZERO, []) == ZERO;
      AddOne(ZERO, [], ClientAccepted);
      assert [] + [ClientAccepted] == START.log.calls;
    } else {
      var before := events[..|events| - 1];
      RunCounts(s, before);
      RunInv(s, before);
      StepCounts(s, Run(s, before), events[|events| - 1]);
    }
  }

  lemma {:induction false} TokensCover(calls: seq<Call>, n: nat)
    requires Charged(n) in calls
    ensures n <= AddAll(ZERO, calls).tokens
  {
    var last := |calls| - 1;
    TokensGrow(calls[..last]);
    if calls[last] != Charged(n) {
      assert calls == calls[..last] + [calls[last]];
      TokensCover(calls[..last], n);
    }
  }

  lemma {:induction false} TokensGrow(calls: seq<Call>)
    ensures 0 <= AddAll(ZERO, calls).tokens
  {
    if calls != [] {
      TokensGrow(calls[..|calls| - 1]);
    }
  }

  /** No occasion costs a client more than ten tokens, which the limiter's theory of
      forgetting relies on. */
  lemma ChargesAreSmall(s: Setup, events: seq<Event>, n: nat)
    requires Charged(n) in Run(s, events).log.calls
    ensures n <= Limiter.MAX_CHARGE
  {
    hide Run;
    hide Skipped;
    RunCounts(s, events);
    TokensCover(Run(s, events).log.calls, n);
  }
}
