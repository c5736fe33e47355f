// All connections of one instance and the metrics they share (src/Instance.hxx):
// the counters always agree with the connections.
module InstanceMetrics {
  import opened Packets
  import opened Kernel
  import opened ProxySpec
  import opened ProxyInvariant
  import opened Metrics

  datatype Member = Member(setup: Setup, conn: Conn)

  /** All connections that ever were, and the metrics. */
  datatype Instance = Instance(members: seq<Member>, metrics: Tally)
  datatype Happening = Accept(setup: Setup) | On(i: nat, event: Event)

  /** The calls that a step has added. */
  function NewCalls(c: Conn, c': Conn): seq<Call> {
    if c.log.calls <= c'.log.calls then c'.log.calls[|c.log.calls|..] else []
  }

  /** The metrics are updated call by call, as they are made. */
  function Happens(w: Instance, h: Happening): Instance {
    match h
    case Accept(setup) => Instance(w.members + [Member(setup, START)], AddAll(w.metrics, START.log.calls))
    case On(i, e) =>
      if i >= |w.members| then w
      else
        var m := w.members[i];
        var c' := Step(m.setup, m.conn, e);
        Instance(w.members[i := m.(conn := c')], AddAll(w.metrics, NewCalls(m.conn, c')))
  }

  function Story(happenings: seq<Happening>): Instance {
    if happenings == [] then Instance([], ZERO)
    else Happens(Story(happenings[..|happenings| - 1]), happenings[|happenings| - 1])
  }

  function Plus(a: Tally, b: Tally): Tally {
    Tally(a.clients + b.clients, a.accepted + b.accepted, a.servers + b.servers, a.established + b.established,
          a.failed + b.failed, a.logins + b.logins, a.rejected + b.rejected, a.malformed + b.malformed,
          a.clientBytes + b.clientBytes, a.serverBytes + b.serverBytes, a.tokens + b.tokens, a.cancelled + b.cancelled)
  }

  function Sum(members: seq<Member>): Tally {
    if members == [] then ZERO
    else Plus(Sum(members[..|members| - 1]), AddAll(ZERO, members[|members| - 1].conn.log.calls))
  }

  lemma {:induction false} AddPlus(a: Tally, b: Tally, calls: seq<Call>)
    ensures AddAll(Plus(a, b), calls) == Plus(a, AddAll(b, calls))
  {
    hide Add;
    hide Plus;
    if calls != [] {
      AddPlus(a, b, calls[..|calls| - 1]);
      PlusThenAdd(a, AddAll(b, calls[..|calls| - 1]), calls[|calls| - 1]);
    }
  }

  lemma PlusThenAdd(a: Tally, b: Tally, call: Call)
    ensures Add(Plus(a, b), call) == Plus(a, Add(b, call))
  {}

  lemma {:induction false} AddConcat(t: Tally, a: seq<Call>, b: seq<Call>)
    ensures AddAll(t, a + b) == AddAll(AddAll(t, a), b)
  {
    if b == [] {
      assert a + b == a;
    } else {
      assert (a + b)[..|a + b| - 1] == a + b[..|b| - 1];
      AddConcat(t, a, b[..|b| - 1]);
    }
  }

  lemma SumOne(members: seq<Member>, m: Member)
    ensures Sum(members + [m]) == Plus(Sum(members), AddAll(ZERO, m.conn.log.calls))
  {
    assert (members + [m])[..|members|] == members;
  }

  lemma {:induction false} SumUpdate(members: seq<Member>, i: nat, c: Conn)
    requires i < |members| && members[i].conn.log.calls <= c.log.calls
    ensures Sum(members[i := members[i].(conn := c)]) == AddAll(Sum(members), NewCalls(members[i].conn, c))
  {
    hide AddAll;
    hide Plus;
    var last := |members| - 1;
    var news := NewCalls(members[i].conn, c);
    var members' := members[i := members[i].(conn := c)];
    if i == last {
      assert members'[..last] == members[..last];
      assert members[i].conn.log.calls + news == c.log.calls;
      AddConcat(ZERO, members[i].conn.log.calls, news);
      AddPlus(Sum(members[..last]), AddAll(ZERO, members[i].conn.log.calls), news);
    } else {
      assert members'[..last] == members[..last][i := members[i].(conn := c)];
      SumUpdate(members[..last], i, c);
      PlusCommutes(Sum(members[..last]), AddAll(ZERO, members[last].conn.log.calls));
      PlusCommutes(Sum(members'[..last]), AddAll(ZERO, members[last].conn.log.calls));
      AddPlus(AddAll(ZERO, members[last].conn.log.calls), Sum(members[..last]), news);
    }
  }

  lemma PlusZero(t: Tally)
    ensures Plus(t, ZERO) == t
  {}

  lemma PlusCommutes(a: Tally, b: Tally)
    ensures Plus(a, b) == Plus(b, a)
  {}

  function Living(members: seq<Member>): nat {
    if members == [] then 0
    else Living(members[..|members| - 1]) + if members[|members| - 1].conn.log.status == Closed then 0 else 1
  }

  function WithServer(members: seq<Member>): nat {
    if members == [] then 0
    else WithServer(members[..|members| - 1]) + if members[|members| - 1].conn.outgoing then 1 else 0
  }

  /** All bytes relayed from clients and from servers, by all connections. */
  ghost function RelayedBytes(members: seq<Member>): (int, int) {
    if members == [] then (0, 0)
    else
      var m := members[|members| - 1];
      var (up, down) := RelayedBytes(members[..|members| - 1]);
      (up + Relayed(HandshakeSize(m.setup), m.conn, m.conn.up),
          down + Relayed(SkippedBytes(m.setup, m.conn), m.conn, m.conn.down))
  }

  /** How many connections have ever made this call. */
  function Had(members: seq<Member>, call: Call): nat {
    if members == [] then 0
    else Had(members[..|members| - 1], call) + if call in members[|members| - 1].conn.log.calls then 1 else 0
  }

  /** A counter of a single connection's tally, by whether it made the call. */
  lemma {:induction false} CallCounts(calls: seq<Call>)
    ensures var t := AddAll(ZERO, calls);
            && 0 <= t.logins && (t.logins > 0 <==> LoginAccepted in calls)
            && 0 <= t.rejected && (t.rejected > 0 <==> LoginRejected in calls)
            && 0 <= t.malformed && (t.malformed > 0 <==> LoginMalformed in calls)
            && 0 <= t.established && (t.established > 0 <==> ServerConnected in calls)
            && 0 <= t.failed && (t.failed > 0 <==> ServerFailed in calls)
  {
    if calls != [] {
      var before, last := calls[..|calls| - 1], calls[|calls| - 1];
      CallCounts(before);
      assert calls == before + [last];
    }
  }

  ghost predicate AllCounted(members: seq<Member>) {
    forall m <- members :: m.conn in Consistent(m.setup) && Counted(m.setup, m.conn)
  }

  ghost predicate Balance(members: seq<Member>, t: Tally) {
    && t.clients == Living(members) && t.servers == WithServer(members) && t.accepted == |members|
    && 0 <= t.established && 0 <= t.failed && t.established + t.failed <= t.logins
    && 0 <= t.rejected && 0 <= t.malformed && t.logins + t.rejected + t.malformed <= t.accepted
    && t.logins == Had(members, LoginAccepted) && t.rejected == Had(members, LoginRejected)
    && t.malformed == Had(members, LoginMalformed)
    && t.established == Had(members, ServerConnected) && t.failed == Had(members, ServerFailed)
    && (t.clientBytes, t.serverBytes) == RelayedBytes(members)
    && 0 <= t.tokens <= 10 * t.accepted && 0 <= t.cancelled <= t.accepted
  }

  lemma OneBalances(s: Setup, c: Conn)
    requires Counted(s, c) && c in Consistent(s)
    ensures var t := AddAll(ZERO, c.log.calls);
            && t.clients == (if c.log.status == Closed then 0 else 1) && t.servers == (if c.outgoing then 1 else 0)
            && Final(s, c, t.(clients := 0, servers := 0))
  {
    hide AddAll;
    hide SkippedBytes;
    ClosedHasNoServer(s, c);
    hide Consistent;
  }

  lemma ClosedHasNoServer(s: Setup, c: Conn)
    requires c in Consistent(s)
    ensures c.log.status == Closed ==> !c.outgoing
  {}

  lemma {:induction false} SumBalances(members: seq<Member>)
    requires AllCounted(members)
    ensures Balance(members, Sum(members))
  {
    hide Consistent;
    hide Counted;
    hide AddAll;
    hide SkippedBytes;
    if members != [] {
      var last := |members| - 1;
      SumBalances(members[..last]);
      OneBalances(members[last].setup, members[last].conn);
      CallCounts(members[last].conn.log.calls);
    }
  }

  lemma AcceptAdds(w: Instance, setup: Setup)
    requires w.metrics == Sum(w.members)
    ensures Happens(w, Accept(setup)).metrics == Sum(Happens(w, Accept(setup)).members)
  {
    hide AddAll;
    hide Sum;
    hide Plus;
    SumOne(w.members, Member(setup, START));
    PlusZero(Sum(w.members));
    AddPlus(Sum(w.members), ZERO, START.log.calls);
  }

  lemma OnAdds(w: Instance, i: nat, e: Event)
    requires i < |w.members| && w.metrics == Sum(w.members)
    ensures Happens(w, On(i, e)).metrics == Sum(Happens(w, On(i, e)).members)
  {
    hide Step;
    hide AddAll;
    StepLogs(w.members[i].setup, w.members[i].conn, e);
    SumUpdate(w.members, i, Step(w.members[i].setup, w.members[i].conn, e));
  }

  lemma HappensCounts(w: Instance, h: Happening)
    requires AllCounted(w.members)
    ensures AllCounted(Happens(w, h).members)
  {
    hide Consistent;
    hide Counted;
    hide Step;
    hide AddAll;
    match h
    case Accept(setup) =>
      StartInv(setup);
      RunCounts(setup, []);
    case On(i, e) =>
      if i < |w.members| {
        StepInv(w.members[i].setup, w.members[i].conn, e);
        StepCounts(w.members[i].setup, w.members[i].conn, e);
      }
  }

  /** On every history of the instance: its metrics are the sums over all
      connections. */
  lemma {:induction false} StoryAdds(happenings: seq<Happening>)
    ensures var w := Story(happenings);
            w.metrics == Sum(w.members) && AllCounted(w.members)
  {
    hide AllCounted;
    hide Happens;
    if happenings == [] {
      NoneCounted();
    } else {
      var w := Story(happenings[..|happenings| - 1]);
      var h := happenings[|happenings| - 1];
      StoryAdds(happenings[..|happenings| - 1]);
      HappensCounts(w, h);
      match h
      case Accept(setup) => AcceptAdds(w, setup);
      case On(i, e) =>
        if i < |w.members| {
          OnAdds(w, i, e);
        } else {
          NothingHappens(w, h);
        }
    }
  }

  lemma NoneCounted()
    ensures AllCounted([])
  {}

  lemma NothingHappens(w: Instance, h: Happening)
    requires h.On? && h.i >= |w.members|
    ensures Happens(w, h) == w
  {}

  /** Hence: the gauges count the live connections and those connected to a game
      server, so they never underflow and return to zero when the last connection
      is gone; server connections, made or failed, never exceed accepted logins;
      the byte counters count exactly the relayed bytes. */
  lemma Conservation(happenings: seq<Happening>)
    ensures var w := Story(happenings);
            && Balance(w.members, w.metrics)
            && ((forall m <- w.members :: m.conn.log.status == Closed) ==> w.metrics.clients == w.metrics.servers == 0)
  {
    hide Consistent;
    hide Counted;
    StoryAdds(happenings);
    var w := Story(happenings);
    SumBalances(w.members);
    if forall m <- w.members :: m.conn.log.status == Closed {
      AllGone(w.members);
    }
  }

  lemma {:induction false} AllGone(members: seq<Member>)
    requires AllCounted(members) && forall m <- members :: m.conn.log.status == Closed
    ensures Living(members) == WithServer(members) == 0
  {
    hide Consistent;
    hide Counted;
    if members != [] {
      var m := members[|members| - 1];
      ClosedHasNoServer(m.setup, m.conn);
      AllGone(members[..|members| - 1]);
    }
  }

  lemma DestroyLogs()
    ensures forall c: Conn :: c.log.calls <= Destroy(c).log.calls
    ensures forall c: Conn, reply: int :: Reject(c, reply).log.calls == c.log.calls
  {}

  lemma CheckLogs(s: Setup, c: Conn, result: bool, io: Io)
    ensures c.log.calls <= OnCheckCredentials(s, c, result, io).log.calls
  {
    hide ServerListPacket;
    hide Destroy;
    hide Reject;
    DestroyLogs();
  }

  lemma CheckLoginLogs(s: Setup, c: Conn, io: Io)
    requires |c.log.packets| == INITIAL_SIZE
    ensures c.log.calls <= CheckLogin(s, c, io).log.calls
  {
    hide OnCheckCredentials;
    hide WellFormedLogin;
    hide ValidUsername;
    hide Username;
    hide Password;
    hide Destroy;
    hide Reject;
    DestroyLogs();
    var asked := AskedFor(Credentials(Username(c.log.packets), Password(c.log.packets)));
    CheckLogs(s, Log(c.(state := CheckCredentials), asked), true, io);
  }

  lemma LoginPacketsLog(s: Setup, c: Conn, io: Io)
    requires |c.log.packets| < INITIAL_SIZE
    ensures c.log.calls <= ReceiveLoginPackets(s, c, io).log.calls
  {
    hide CheckLogin;
    hide Destroy;
    DestroyLogs();
    var input := Clip(Input(io.inputs, 0), INITIAL_SIZE - |c.log.packets|);
    if input.Data? && |c.log.packets| + |input.bytes| == INITIAL_SIZE {
      var c' := c.(up := c.up.(src := c.up.src + input.bytes), log := c.log.(packets := c.log.packets + input.bytes));
      CheckLoginLogs(s, c'.(up := c'.up.(read := false), pending := c'.pending.(timeout := false)), io);
    }
  }

  lemma RelayLogs(c: Conn, ready: Ready, io: Io)
    ensures c.log.calls <= RelayIncoming(c, ready, io).log.calls
    ensures c.log.calls <= RelayOutgoing(c, ready, io).log.calls
  {
    hide Relay;
    hide Destroy;
    var (down, up, _, n) := Relay(c.down, c.up, ready, io);
    SettleLogs(c.(down := down, up := up, log := c.log.(calls := LogIf(c.log.calls, n > 0, ClientBytes(n)))));
    var (up', down', _, n') := Relay(c.up, c.down, ready, io);
    SettleLogs(c.(down := down', up := up', log := c.log.(calls := LogIf(c.log.calls, n' > 0, ServerBytes(n')))));
  }

  lemma SettleLogs(c: Conn)
    ensures forall v :: c.log.calls <= Settle(c, v).log.calls
  {}

  lemma PacketsLog(s: Setup, c: Conn, io: Io)
    ensures c.log.calls <= ReceivePlayServer(s, c, io).log.calls
    ensures c.log.calls <= ReceiveServerList(c, io).log.calls
  {
    hide TakeServerList;
    hide Choice;
  }

  lemma ReadyLogs(s: Setup, c: Conn, ready: Ready, io: Io)
    requires c.state.Initial? ==> |c.log.packets| < INITIAL_SIZE
    ensures c.log.calls <= OnIncomingReady(s, c, ready, io).log.calls
    ensures c.log.calls <= OnOutgoingReady(c, ready, io).log.calls
  {
    hide ReceiveLoginPackets;
    hide RelayIncoming;
    hide RelayOutgoing;
    hide ReceivePlayServer;
    hide ReceiveServerList;
    PacketsLog(s, c, io);
    RelayLogs(c, ready, io);
    if c.state.Initial? {
      LoginPacketsLog(s, c, io);
    }
  }

  /** Calls are only ever added. */
  lemma StepLogs(s: Setup, c: Conn, e: Event)
    ensures c.log.calls <= Step(s, c, e).log.calls
  {
    hide OnIncomingReady;
    hide OnOutgoingReady;
    hide OnCheckCredentials;
    hide Hello;
    hide Destroy;
    DestroyLogs();
    if Dispatched(c, e) {
      match e
      case Incoming(r, io) => ReadyLogs(s, c, Mask(r, c.up.read, c.down.write), io);
      case Outgoing(r, io) => ReadyLogs(s, c, Mask(r, c.down.read, c.up.write), io);
      case Checked(result, io) => CheckLogs(s, c, result, io);
      case _ =>
    }
  }
}
