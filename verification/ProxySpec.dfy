// The login proxy for one client (src/Connection.cxx over src/Splice.cxx) as a
// function from events to states.  The class in Proxy.dfy refines it; the
// properties of its runs are proved in ProxyRuns.dfy.
module ProxySpec {
  import opened Packets
  import opened Kernel

  type Address = nat
  datatype GameServer = GameServer(name: Bytes, address: Address)
  datatype Config = Config(gameServer: Address, serverList: seq<GameServer>, sendRemoteIp: bool)

  /** What is fixed for one connection; `remoteIp` is empty if the client's
      address has no textual form. */
  datatype Setup = Setup(config: Config, remoteIp: Bytes) {
    predicate ShowsServerList() { config.serverList != [] }

    function Names(): (n: seq<Bytes>)
      ensures |n| == |config.serverList|
    {
      seq(|config.serverList|, i requires 0 <= i < |config.serverList| => config.serverList[i].name)
    }

    function HelloTo(packets: Bytes): Bytes
      requires |packets| == INITIAL_SIZE
    {
      Hello(packets, config.sendRemoteIp, remoteIp)
    }
  }

  datatype State = Initial | CheckCredentials | ServerList | Connecting | SendPlayServer | Ready
  datatype Status = Alive | Closed | Aborted

  /** One direction of the relay: everything ever read from its source, whether
      READ is scheduled there, what sits in its pipe, whether WRITE is scheduled
      at its destination, everything ever written there, and whether writing
      there was ended with a FIN. */
  datatype Lane = Lane(src: Bytes, read: bool, buffer: Bytes, write: bool, dst: Bytes, fin: bool)

  datatype Credentials = Credentials(username: Bytes, password: Bytes)

  /** What a connection asks of the objects around it: charges on its client's
      token bucket, the credentials job, and changes of the instance metrics. */
  datatype Call =
    | Charged(tokens: nat)
    | AskedFor(credentials: Credentials)
    | CancelledJob
    | ClientAccepted
    | ClientGone
    | ServerConnected
    | ServerGone
    | ServerFailed
    | LoginAccepted
    | LoginRejected
    | LoginMalformed
    | ClientBytes(n: nat)
    | ServerBytes(n: nat)

  /** Whether a connection attempt, the timer, the credentials job are pending. */
  datatype Pending = Pending(connect: bool, timeout: bool, cancel: bool)

  /** What has happened to a connection: whether it still exists, the bytes of the
      client's first two packets, what the kernel accepted of the three packets
      sent during the handshake, and all calls on the objects around it. */
  datatype History = History(
    status: Status, packets: Bytes, sentList: Bytes, sentHello: Bytes, sentPlay: Bytes, calls: seq<Call>)

  /** One connection.  `outgoing` says whether the socket to the game server is
      open; `up` runs from the client to the game server, `down` back. */
  datatype Conn = Conn(
    state: State, sendPlayServer: bool, outgoingAddress: Option<Address>, outgoing: bool,
    pending: Pending, up: Lane, down: Lane, log: History)

  const NOTHING := Pending(false, false, false)
  const IDLE := Lane([], false, [], false, [], false)

  const START := Conn(
    Initial, false, None, false, Pending(false, true, false), IDLE.(read := true), IDLE,
    History(Alive, [], [], [], [], [ClientAccepted]))

  // ---- Splicing ----

  datatype Verdict = Keep | Close | AssertFails

  /** DoSpliceSend around Splice::SendTo. */
  function SpliceSend(l: Lane, r: Sent): (Lane, Verdict) {
    if l.buffer == [] then (l, AssertFails)
    else match r
      case Took(n) =>
        var taken := Prefix(l.buffer, n);
        var l' := l.(dst := l.dst + taken, buffer := l.buffer[|taken|..]);
        if taken == [] then (l, Close)
        else if l'.buffer == [] then (l'.(write := false), Keep)
        else (l'.(read := false, write := true), Keep)
      case WouldBlock => (l.(read := false, write := true), Keep)
      case Broken => (l, Close)
  }

  /** The READ branch of both handlers: Splice::ReceiveFrom, then on success
      DoSpliceSend.  Also returns the byte count for the metrics. */
  function SpliceReceive(l: Lane, r: Received, forward: Sent): (Lane, Verdict, nat) {
    match Clip(r, 0x4000_0000)
    case Data(b) =>
      var (l', v) := SpliceSend(l.(src := l.src + b, buffer := l.buffer + b), forward);
      (l', v, |b|)
    case Again =>
      if l.buffer == [] then (l, Keep, 0)
      else if l.write then (l.(read := false), Keep, 0)
      else (l, AssertFails, 0)
    case Eof => (l.(fin := true), Close, 0)
    case Failed => (l, Close, 0)
  }

  /** What a ready socket does to the lane it drains and the lane it fills. */
  function Relay(drained: Lane, filled: Lane, ready: Ready, io: Io): (Lane, Lane, Verdict, nat) {
    var (drained', v) := if ready.write then SpliceSend(drained, io.drain) else (drained, Keep);
    if v != Keep || !ready.read then (drained', filled, v, 0)
    else
      var (filled', w, n) := SpliceReceive(filled, Input(io.inputs, 0), io.forward);
      (drained', filled', w, n)
  }

  // ---- The handlers ----

  function Shut(l: Lane): Lane { l.(read := false, buffer := [], write := false) }

  function Log(c: Conn, call: Call): Conn { c.(log := c.log.(calls := c.log.calls + [call])) }

  function LogIf(calls: seq<Call>, condition: bool, call: Call): seq<Call> {
    if condition then calls + [call] else calls
  }

  function Goodbye(c: Conn): seq<Call> {
    LogIf(LogIf(c.log.calls, c.pending.cancel, CancelledJob), c.outgoing, ServerGone) + [ClientGone]
  }

  /** The destructor. */
  function Destroy(c: Conn): Conn {
    c.(outgoing := false, pending := NOTHING, up := Shut(c.up), down := Shut(c.down),
       log := c.log.(status := Closed, calls := Goodbye(c)))
  }

  function Abort(c: Conn): Conn { c.(log := c.log.(status := Aborted)) }

  function Settle(c: Conn, v: Verdict): Conn {
    match v case Keep => c case Close => Destroy(c) case AssertFails => Abort(c)
  }

  /** accounting.UpdateTokenBucket */
  function Charge(c: Conn, size: nat): Conn { Log(c, Charged(size)) }

  /** SendAccountLoginReject and, if that succeeds, a FIN. */
  function Reject(c: Conn, reply: int): Conn {
    if reply < 0 then c else c.(down := c.down.(dst := c.down.dst + Prefix(REJECT, reply), fin := true))
  }

  function SendServerList(s: Setup, c: Conn, reply: int): Conn
    requires s.ShowsServerList()
  {
    if reply < 0 then Destroy(c)
    else
      var sent := Prefix(ServerListPacket(s.Names()), reply);
      c.(state := ServerList, pending := c.pending.(timeout := true),
         up := c.up.(read := true), down := c.down.(dst := c.down.dst + sent), log := c.log.(sentList := sent))
  }

  function OnCheckCredentials(s: Setup, c0: Conn, result: bool, io: Io): Conn {
    Decided(s, c0.(pending := c0.pending.(cancel := false)), result, io)
  }

  /** What follows, once the job is forgotten. */
  function Decided(s: Setup, c: Conn, result: bool, io: Io): Conn {
    if !result then
      Destroy(Reject(Charge(Log(c, LoginRejected), 5), io.reply))
    else
      var c := Log(Charge(c, 1), LoginAccepted);
      if s.ShowsServerList() then SendServerList(s, c, io.reply)
      else c.(state := Connecting, outgoingAddress := Some(s.config.gameServer),
              pending := c.pending.(connect := true), up := c.up.(read := true))
  }

  function CheckLogin(s: Setup, c: Conn, io: Io): Conn
    requires |c.log.packets| == INITIAL_SIZE
  {
    if !WellFormedLogin(c.log.packets) then Destroy(Charge(Log(c, LoginMalformed), 10))
    else if !ValidUsername(Username(c.log.packets)) then Destroy(Reject(Charge(Log(c, LoginMalformed), 8), io.reply))
    else
      var c := Log(c.(state := CheckCredentials),
        AskedFor(Credentials(Username(c.log.packets), Password(c.log.packets))));
      match io.lookup
      case Throws => Destroy(Reject(Charge(c, 2), io.reply))
      case NoDatabase => OnCheckCredentials(s, c, true, io)
      case Queued => c.(pending := c.pending.(cancel := true))
  }

  function ReceiveLoginPackets(s: Setup, c: Conn, io: Io): Conn
    requires |c.log.packets| < INITIAL_SIZE
  {
    match Clip(Input(io.inputs, 0), INITIAL_SIZE - |c.log.packets|)
    case Data(b) =>
      var c := c.(up := c.up.(src := c.up.src + b), log := c.log.(packets := c.log.packets + b));
      if |c.log.packets| < INITIAL_SIZE then c
      else CheckLogin(s, c.(up := c.up.(read := false), pending := c.pending.(timeout := false)), io)
    case _ => Destroy(c)
  }

  /** The address that a PlayServer packet from the client chooses. */
  function Choice(s: Setup, packet: Bytes): Option<Address> {
    if |packet| != PLAY_SERVER_SIZE || packet[0] != PLAY_SERVER || ReadBE16(packet[1..]) >= |s.config.serverList|
        then None
    else Some(s.config.serverList[ReadBE16(packet[1..])].address)
  }

  function ReceivePlayServer(s: Setup, c: Conn, io: Io): Conn {
    match Clip(Input(io.inputs, 0), PLAY_SERVER_SIZE)
    case Data(b) =>
      var c := c.(up := c.up.(src := c.up.src + b));
      if Choice(s, b) == None then Destroy(c)
      else c.(state := Connecting, sendPlayServer := true, outgoingAddress := Choice(s, b),
              pending := c.pending.(connect := true, timeout := false), up := c.up.(read := false))
    case _ => Destroy(c)
  }

  function OnIncomingReady(s: Setup, c: Conn, ready: Ready, io: Io): Conn
    requires c.state.Initial? ==> |c.log.packets| < INITIAL_SIZE
  {
    if ready.dead then Destroy(if c.state.Initial? then Charge(c, 4) else c)
    else if c.pending.connect then Abort(c)
    else if (c.state.Initial? || c.state.ServerList?) && !ready.read then Abort(c)
    else if c.state.Initial? then ReceiveLoginPackets(s, c, io)
    else if c.state.ServerList? then ReceivePlayServer(s, c, io)
    else RelayIncoming(c, ready, io)
  }

  function RelayIncoming(c: Conn, ready: Ready, io: Io): Conn {
    var (down, up, v, n) := Relay(c.down, c.up, ready, io);
    Settle(c.(down := down, up := up, log := c.log.(calls := LogIf(c.log.calls, n > 0, ClientBytes(n)))), v)
  }

  /** The bytes that reading a ServerList packet takes from the server, and
      whether it read one to its end. */
  function TakeServerList(inputs: seq<Received>): (Bytes, bool) {
    match Clip(Input(inputs, 0), 1)
    case Data(cmd) =>
      if cmd[0] != SERVER_LIST then (cmd, false)
      else (
        match Clip(Input(inputs, 1), 2)
        case Data(length) =>
          if |length| != 2 || ReadBE16(length) < SERVER_LIST_MIN_SIZE then (cmd + length, false)
          else
            var (ok, dropped) := Discarded(inputs[Min(2, |inputs|)..], ReadBE16(length) - 3);
            (cmd + length + dropped, ok)
        case _ => (cmd, false))
    case _ => ([], false)
  }

  /** Drops the server's own ServerList packet and answers it. */
  function ReceiveServerList(c: Conn, io: Io): Conn {
    var (taken, ok) := TakeServerList(io.inputs);
    var c := c.(down := c.down.(src := c.down.src + taken));
    if !ok || io.reply < 0 then Destroy(c)
    else
      var sent := Prefix(PlayServer(0), io.reply);
      c.(state := State.Ready, up := c.up.(read := true, dst := c.up.dst + sent), log := c.log.(sentPlay := sent))
  }

  function OnOutgoingReady(c: Conn, ready: Ready, io: Io): Conn {
    if c.pending.connect then Abort(c)
    else if ready.dead then Destroy(Charge(c, 5))
    else if c.state.SendPlayServer? then ReceiveServerList(c, io)
    else if !c.state.Ready? then Abort(c)
    else RelayOutgoing(c, ready, io)
  }

  function RelayOutgoing(c: Conn, ready: Ready, io: Io): Conn {
    var (up, down, v, n) := Relay(c.up, c.down, ready, io);
    Settle(c.(down := down, up := up, log := c.log.(calls := LogIf(c.log.calls, n > 0, ServerBytes(n)))), v)
  }

  function OnTimeout(c: Conn): Conn { Destroy(Charge(c.(pending := c.pending.(timeout := false)), 7)) }

  function OnSocketConnectSuccess(s: Setup, c0: Conn, sent: int): Conn
    requires |c0.log.packets| == INITIAL_SIZE
  {
    var c := c0.(pending := c0.pending.(connect := false));
    if sent <= 0 then Destroy(c)
    else
      var hello := Prefix(s.HelloTo(c.log.packets), sent);
      c.(outgoing := true, state := if c.sendPlayServer then SendPlayServer else State.Ready,
         up := c.up.(dst := c.up.dst + hello, read := if c.sendPlayServer then c.up.read else true),
         down := c.down.(read := true),
         log := c.log.(sentHello := hello, calls := c.log.calls + [ServerConnected]))
  }

  function OnSocketConnectError(c: Conn): Conn {
    Destroy(Log(c.(pending := c.pending.(connect := false)), ServerFailed))
  }

  // ---- Events and runs ----

  datatype Event =
    | Incoming(ready: Ready, io: Io)
    | Outgoing(ready: Ready, io: Io)
    | Timeout
    | Checked(result: bool, io: Io)
    | Connected(sent: int)
    | ConnectFailed
    | Teardown

  /** A live connection has received all 83 bytes exactly when it has left the
      initial state, and connects only in one state.  No run leaves this
      (ProxyInvariant.RunInv); it makes the handlers well defined. */
  predicate Sane(c: Conn) {
    && |c.log.packets| <= INITIAL_SIZE
    && (c.log.status == Alive ==> (c.state.Initial? <==> |c.log.packets| < INITIAL_SIZE))
    && (c.log.status == Alive && c.pending.connect ==> c.state.Connecting?)
  }

  /** Whether the event loop can deliver `e`: only to a live connection, only for
      a socket, timer, job or connection attempt that is pending. */
  predicate Dispatched(c: Conn, e: Event) {
    && c.log.status == Alive && Sane(c)
    && match e
       case Incoming(r, _) => Fires(Mask(r, c.up.read, c.down.write))
       case Outgoing(r, _) => c.outgoing && Fires(Mask(r, c.down.read, c.up.write))
       case Timeout => c.pending.timeout
       case Checked(_, _) => c.pending.cancel
       case Connected(_) => c.pending.connect
       case ConnectFailed => c.pending.connect
       case Teardown => true
  }

  function Handle(s: Setup, c: Conn, e: Event): Conn
    requires Dispatched(c, e)
  {
    match e
    case Incoming(r, io) => OnIncomingReady(s, c, Mask(r, c.up.read, c.down.write), io)
    case Outgoing(r, io) => OnOutgoingReady(c, Mask(r, c.down.read, c.up.write), io)
    case Timeout => OnTimeout(c)
    case Checked(result, io) => OnCheckCredentials(s, c, result, io)
    case Connected(sent) => OnSocketConnectSuccess(s, c, sent)
    case ConnectFailed => OnSocketConnectError(c)
    case Teardown => Destroy(c)
  }

  /** An event that the event loop cannot deliver changes nothing. */
  function Step(s: Setup, c: Conn, e: Event): Conn {
    if Dispatched(c, e) then Handle(s, c, e) else c
  }

  function Run(s: Setup, events: seq<Event>): Conn {
    if events == [] then START
    else Step(s, Run(s, events[..|events| - 1]), events[|events| - 1])
  }
}
