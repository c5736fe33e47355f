// The connection object (src/Connection.cxx, src/Connection.hxx) as the source
// has it: handler methods that update the object, its sockets and its splices.
// Each handler is shown to do what the function of the same name in
// ProxySpec.dfy does.
module Proxy {
  import opened Packets
  import opened Kernel
  import opened Splicing
  import opened ProxySpec
  import opened ProxyInvariant

  /** The direction that `s` carries from one socket to another. */
  function LaneOf(from: Socket, to: Socket, content: Bytes): Lane {
    Lane(from.input, from.read, content, to.write, to.output, to.fin)
  }

  /** The two ends of a direction, from the state of its lane. */
  function Source(from: Socket, l: Lane): Socket { from.(input := l.src, read := l.read) }
  function Sink(to: Socket, l: Lane): Socket { to.(write := l.write, output := l.dst, fin := l.fin) }

  /** SpliceSend in terms of the two sockets. */
  lemma SentEnds(from: Socket, to: Socket, content: Bytes, r: Sent)
    requires content != []
    ensures var (l, v) := SpliceSend(LaneOf(from, to, content), r);
            match r
            case Took(n) =>
              var taken := Prefix(content, n);
              var rest := content[|taken|..];
              if taken == [] then v == Close && l.buffer == content && Source(from, l) == from && Sink(to, l) == to
              else
                && v == Keep && l.buffer == rest
                && Source(from, l) == (if rest == [] then from else from.(read := false))
                && Sink(to, l) == to.(output := to.output + taken, write := rest != [])
            case WouldBlock =>
              && v == Keep && l.buffer == content
              && Source(from, l) == from.(read := false) && Sink(to, l) == to.(write := true)
            case Broken => v == Close && l.buffer == content && Source(from, l) == from && Sink(to, l) == to
  {}

  /** SendTo, and scheduling what its result calls for. */
  method DoSpliceSend(from: Socket, to: Socket, s: Splice, stock: PipeStock, r: Sent)
    returns (ok: bool, from': Socket, to': Socket)
    requires stock.Valid() && s in stock.splices && s.content != []
    modifies s, s.pipe, stock`idle
    ensures stock.Valid()
    ensures var (l, v) := SpliceSend(LaneOf(from, to, old(s.content)), r);
            && v == (if ok then Keep else Close) && s.content == l.buffer
            && from' == Source(from, l) && to' == Sink(to, l)
  {
    hide SpliceSend;
    hide PipeStock.Valid;
    hide LaneOf;
    hide Source;
    hide Sink;
    Sendable(s, stock);
    SentEnds(from, to, s.content, r);
    from' := from;
    var result;
    result, to' := s.SendTo(stock, to, r);
    match result {
      case SendOk =>
        to' := to'.(write := false);
      case Partial | SendBlocking =>
        from' := from'.(read := false);
        to' := to'.(write := true);
      case SendError =>
        assert to.output + [] == to.output;
    }
    ok := result != SendError;
  }

  /** The assertions in SendTo: bytes to send are in a pipe. */
  lemma Sendable(s: Splice, stock: PipeStock)
    requires stock.Valid() && s in stock.splices && s.content != []
    ensures s.pipe != null && s.size > 0 && s.pipe in stock.pipes
  {}

  /** Splice::ReceiveFrom in the lane's terms, with its result. */
  function Filled(l: Lane, r: Received): (Lane, ReceiveResult) {
    match Clip(r, 0x4000_0000)
    case Data(b) => (l.(src := l.src + b, buffer := l.buffer + b), Ok)
    case Again => (l, if l.buffer == [] then SocketBlocking else PipeFull)
    case Eof => (l, SocketClosed)
    case Failed => (l, Error)
  }

  lemma FilledThenSent(l: Lane, r: Received, forward: Sent)
    requires l.buffer != [] ==> l.write
    ensures var (l1, result) := Filled(l, r);
            SpliceReceive(l, r, forward) ==
            match result
            case Ok => var (l2, v) := SpliceSend(l1, forward); (l2, v, |l1.src| - |l.src|)
            case SocketBlocking => (l, Keep, 0)
            case SocketClosed => (l.(fin := true), Close, 0)
            case PipeFull => (l.(read := false), Keep, 0)
            case Error => (l, Close, 0)
    ensures var (l1, result) := Filled(l, r);
            result == Ok ==> l1.buffer != [] && l1 == l.(src := l1.src, buffer := l1.buffer) && |l.src| <= |l1.src|
    ensures Filled(l, r).1 != Ok ==> Filled(l, r).0 == l
    ensures Filled(l, r).1 == PipeFull ==> l.write
  {}

  method Fill(from: Socket, to: Socket, s: Splice, stock: PipeStock, r: Received)
    returns (result: ReceiveResult, from': Socket)
    requires stock.Valid() && s in stock.splices
    modifies s, stock`idle, stock`pipes, stock.pipes
    ensures stock.Valid() && fresh(stock.pipes - old(stock.pipes))
    ensures var (l, w) := Filled(LaneOf(from, to, old(s.content)), r);
            && result == w && s.content == l.buffer && from' == Source(from, l)
            && (result == Ok ==> s.receivedBytes == |l.src| - |from.input|)
  {
    hide PipeStock.Valid;
    hide Clip;
    s.ResetReceived(stock);
    result, from' := s.ReceiveFrom(stock, from, r);
  }

  /** The cases of the READ branch in which nothing was read. */
  method NothingRead(from: Socket, to: Socket, result: ReceiveResult) returns (v: Verdict, from': Socket, to': Socket)
    requires result != Ok && (result == PipeFull ==> to.write)
    ensures v == if result == SocketClosed || result == Error then Close else Keep
    ensures from' == if result == PipeFull then from.(read := false) else from
    ensures to' == if result == SocketClosed then to.(fin := true) else to
  {
    v, from', to' := Keep, from, to;
    match result {
      case SocketBlocking =>
      case SocketClosed =>
        to', v := to.ShutdownWrite(), Close;
      case PipeFull =>
        assert to.write;
        from' := from.(read := false);
      case Error =>
        v := Close;
    }
  }

  /** After reading, the other end of the lane is as before; after sending as well,
      both ends are the new lane's. */
  lemma EndsOf(from: Socket, to: Socket, content: Bytes, l: Lane)
    requires l == LaneOf(from, to, content).(src := l.src, buffer := l.buffer)
    ensures LaneOf(Source(from, l), to, l.buffer) == l
    ensures forall m: Lane :: Source(Source(from, l), m) == Source(from, m)
    ensures LaneOf(from, to, content).write == to.write && LaneOf(from, to, content).buffer == content
    ensures LaneOf(from, to, content).src == from.input
  {}

  lemma SameEnds(from: Socket, to: Socket, content: Bytes)
    ensures var l := LaneOf(from, to, content);
            && Source(from, l) == from && Source(from, l.(fin := true)) == from
            && Source(from, l.(read := false)) == from.(read := false)
            && Sink(to, l) == to && Sink(to, l.(fin := true)) == to.(fin := true) && Sink(to, l.(read := false)) == to
  {}

  /** The READ branch of both handlers. */
  method SpliceInput(from: Socket, to: Socket, s: Splice, stock: PipeStock, r: Received, forward: Sent)
    returns (v: Verdict, n: nat, from': Socket, to': Socket)
    requires stock.Valid() && s in stock.splices && (s.content != [] ==> to.write)
    modifies s, stock`idle, stock`pipes, stock.pipes
    ensures stock.Valid() && fresh(stock.pipes - old(stock.pipes))
    ensures var (l, w, m) := SpliceReceive(LaneOf(from, to, old(s.content)), r, forward);
            v == w != AssertFails && n == m && s.content == l.buffer && from' == Source(from, l) && to' == Sink(to, l)
  {
    hide SpliceSend;
    hide SpliceReceive;
    hide Filled;
    hide PipeStock.Valid;
    hide LaneOf;
    hide Source;
    hide Sink;
    EndsOf(from, to, s.content, LaneOf(from, to, s.content));
    FilledThenSent(LaneOf(from, to, s.content), r, forward);
    EndsOf(from, to, s.content, Filled(LaneOf(from, to, s.content), r).0);
    SameEnds(from, to, s.content);
    var result;
    result, from' := Fill(from, to, s, stock, r);
    n := 0;
    if result == Ok {
      n := s.receivedBytes;
      InPool(stock, s);
      var ok;
      ok, from', to' := DoSpliceSend(from', to, s, stock, forward);
      v := if ok then Keep else Close;
    } else {
      v, from', to' := NothingRead(from', to, result);
    }
  }

  /** Draining leaves the lane to be filled as it was, at both of its ends. */
  lemma RelayedEnds(socket: Socket, peer: Socket, draining: Bytes, filling: Bytes, d: Lane)
    ensures var (l, k) := (LaneOf(peer, socket, draining), LaneOf(socket, peer, filling));
            && l.buffer == draining && k.buffer == filling && Source(peer, l) == peer && Sink(socket, l) == socket
            && Source(socket, k) == socket && Sink(peer, k) == peer
            && LaneOf(Sink(socket, d), Source(peer, d), filling) == k && Source(peer, d).write == peer.write
            && Source(Sink(socket, d), k) == Sink(socket, d) && Sink(Source(peer, d), k) == Source(peer, d)
  {}

  /** What a ready socket does: first `drained` is sent to it, then `filled` takes
      what it has to offer. */
  method RelayReady(
    socket: Socket, peer: Socket, drained: Splice, filled: Splice, stock: PipeStock, ready: Ready, io: Io)
    returns (v: Verdict, n: nat, socket': Socket, peer': Socket)
    requires stock.Valid() && drained in stock.splices && filled in stock.splices && drained != filled
    requires (ready.write ==> drained.content != []) && (filled.content != [] ==> peer.write)
    modifies drained, filled, stock`idle, stock`pipes, stock.pipes
    ensures stock.Valid() && fresh(stock.pipes - old(stock.pipes))
    ensures var l, k := LaneOf(peer, socket, old(drained.content)), LaneOf(socket, peer, old(filled.content));
            var (d, f, w, m) := Relay(l, k, ready, io);
            && v == w != AssertFails && n == m && drained.content == d.buffer && filled.content == f.buffer
            && socket' == Source(Sink(socket, d), f) && peer' == Sink(Source(peer, d), f)
  {
    hide SpliceSend;
    hide SpliceReceive;
    hide PipeStock.Valid;
    hide LaneOf;
    hide Source;
    hide Sink;
    ghost var draining := LaneOf(peer, socket, drained.content);
    RelayedEnds(socket, peer, drained.content, filled.content, SpliceSend(draining, io.drain).0);
    socket', peer', v, n := socket, peer, Keep, 0;
    if ready.write {
      InPool(stock, drained);
      var ok;
      ok, peer', socket' := DoSpliceSend(peer, socket, drained, stock, io.drain);
      v := if ok then Keep else Close;
    }
    if v == Keep && ready.read {
      v, n, socket', peer' := SpliceInput(socket', peer', filled, stock, Input(io.inputs, 0), io.forward);
    }
  }

  /** One round of the loop in Discard. */
  lemma DiscardRound(inputs: seq<Received>, i: nat, left: nat)
    requires i <= |inputs|
    ensures left == 0 ==> Discarded(inputs[i..], left) == (true, [])
    ensures left > 0 && i == |inputs| ==> Discarded(inputs[i..], left) == (false, [])
    ensures left > 0 && i < |inputs| ==>
              match Clip(inputs[i], Min(1024, left))
              case Data(b) =>
                var rest := Discarded(inputs[i + 1..], left - |b|);
                Discarded(inputs[i..], left) == (rest.0, b + rest.1)
              case _ => Discarded(inputs[i..], left) == (false, [])
  {
    if i < |inputs| {
      assert inputs[i..][0] == inputs[i] && inputs[i..][1..] == inputs[i + 1..];
    }
  }

  /** Reads and drops `n` bytes; returns also what it took from the socket. */
  method Discard(inputs: seq<Received>, n: nat) returns (ok: bool, taken: Bytes)
    ensures (ok, taken) == Discarded(inputs, n)
  {
    hide Discarded;
    hide Clip;
    var left, i := n, 0;
    taken := [];
    assert inputs[0..] == inputs && [] + Discarded(inputs, n).1 == Discarded(inputs, n).1;
    while left > 0
      invariant i <= |inputs| && 0 <= left
      invariant Discarded(inputs, n).0 == Discarded(inputs[i..], left).0
      invariant Discarded(inputs, n).1 == taken + Discarded(inputs[i..], left).1
      decreases |inputs| - i, left
    {
      DiscardRound(inputs, i, left);
      assert taken + [] == taken;
      if i == |inputs| {
        return false, taken;
      }
      var got := Clip(inputs[i], Min(1024, left));
      if !got.Data? {
        return false, taken;
      }
      assert taken + (got.bytes + Discarded(inputs[i + 1..], left - |got.bytes|).1)
          == taken + got.bytes + Discarded(inputs[i + 1..], left - |got.bytes|).1;
      taken := taken + got.bytes;
      left := left - |got.bytes|;
      i := i + 1;
    }
    DiscardRound(inputs, i, left);
    assert taken + [] == taken;
    ok := true;
  }

  /** Reads one ServerList packet and drops it. */
  method TakeServerListPacket(inputs: seq<Received>) returns (ok: bool, taken: Bytes)
    ensures (taken, ok) == TakeServerList(inputs)
  {
    var cmd := Clip(Input(inputs, 0), 1);
    if !cmd.Data? {
      return false, [];
    }
    if cmd.bytes[0] != SERVER_LIST {
      return false, cmd.bytes;
    }
    var length := Clip(Input(inputs, 1), 2);
    if !length.Data? {
      return false, cmd.bytes;
    }
    if |length.bytes| != 2 || ReadBE16(length.bytes) < SERVER_LIST_MIN_SIZE {
      return false, cmd.bytes + length.bytes;
    }
    ok, taken := Discard(inputs[Min(2, |inputs|)..], ReadBE16(length.bytes) - 3);
    taken := cmd.bytes + length.bytes + taken;
  }

  function Patched(p: Bytes, offset: nat, data: Bytes): (q: Bytes)
    requires offset + |data| <= |p|
    ensures |q| == |p|
  {
    p[..offset] + data + p[offset + |data|..]
  }

  lemma PatchedMiddle(a: Bytes, x: Bytes, data: Bytes, b: Bytes)
    requires |x| == |data|
    ensures Patched(a + x + b, |a|, data) == a + data + b
  {
    assert (a + x + b)[..|a|] == a;
    assert (a + x + b)[|a| + |data|..] == b;
  }

  lemma Regroup(a: Bytes, b: Bytes, c: Bytes)
    ensures a + b + c == a + (b + c)
  {}

  /** memcpy into the packet under construction. */
  method Put(packet: array<byte>, offset: nat, data: Bytes)
    requires offset + |data| <= packet.Length
    modifies packet
    ensures packet[..] == Patched(old(packet[..]), offset, data)
  {
    forall i | 0 <= i < |data| {
      packet[offset + i] := data[i];
    }
  }

  /** One entry of the zeroed packet, field by field. */
  method PutServer(packet: array<byte>, offset: nat, index: nat, name: Bytes)
    requires offset + SERVER_INFO_SIZE <= packet.Length
    requires packet[offset..offset + SERVER_INFO_SIZE] == Zeros(SERVER_INFO_SIZE)
    modifies packet
    ensures packet[..] == Patched(old(packet[..]), offset, ServerInfo(index, name))
  {
    hide Patched;
    hide ServerInfo;
    ghost var p := packet[..];
    Put(packet, offset, BE16(index));
    Put(packet, offset + 2, NameField(name));
    Put(packet, offset + 36, BE32(0xdeadbeef));
    EntryFilled(p, offset, index, name);
  }

  /** The three fields make up the entry, where all was zero before. */
  lemma EntryFilled(p: Bytes, offset: nat, index: nat, name: Bytes)
    requires offset + SERVER_INFO_SIZE <= |p| && p[offset..offset + SERVER_INFO_SIZE] == Zeros(SERVER_INFO_SIZE)
    ensures Patched(Patched(Patched(p, offset, BE16(index)), offset + 2, NameField(name)),
                    offset + 36, BE32(0xdeadbeef))
         == Patched(p, offset, ServerInfo(index, name))
  {
    var a, b := p[..offset], p[offset + SERVER_INFO_SIZE..];
    var z := Zeros(SERVER_INFO_SIZE);
    assert p == a + z + b;
    assert z == z[..2] + z[2..34] + [0, 0] + z[36..];
    EntryPatched(a, z[..2], z[2..34], z[36..], b, BE16(index), NameField(name), BE32(0xdeadbeef));
    PatchedMiddle(a, z, ServerInfo(index, name), b);
  }

  lemma EntryPatched(a: Bytes, x: Bytes, y: Bytes, z: Bytes, b: Bytes, i: Bytes, n: Bytes, d: Bytes)
    requires |x| == |i| == 2 && |y| == |n| == 32 && |z| == |d| == 4
    ensures Patched(Patched(Patched(a + (x + y + [0, 0] + z) + b, |a|, i), |a| + 2, n), |a| + 36, d)
         == a + (i + n + [0, 0] + d) + b
  {
    hide Patched;
    assert a + (x + y + [0, 0] + z) + b == a + x + (y + [0, 0] + z + b);
    PatchedMiddle(a, x, i, y + [0, 0] + z + b);
    assert a + i + (y + [0, 0] + z + b) == (a + i) + y + ([0, 0] + z + b);
    PatchedMiddle(a + i, y, n, [0, 0] + z + b);
    assert (a + i) + n + ([0, 0] + z + b) == (a + i + n + [0, 0]) + z + b;
    PatchedMiddle(a + i + n + [0, 0], z, d, b);
    assert (a + i + n + [0, 0]) + d + b == a + (i + n + [0, 0] + d) + b;
  }

  /** The packet with its first `i` entries written. */
  function Written(names: seq<Bytes>, i: nat): (p: Bytes)
    requires i <= |names|
    ensures |p| == SERVER_LIST_HEADER_SIZE + SERVER_INFO_SIZE * |names|
  {
    ServerListHeader(|names|) + ServerInfos(names[..i]) + Zeros(SERVER_INFO_SIZE * (|names| - i))
  }

  method BuildServerList(names: seq<Bytes>) returns (packet: array<byte>)
    ensures fresh(packet) && packet[..] == ServerListPacket(names)
  {
    hide Written;
    hide ServerListPacket;
    packet := EmptyServerList(names);
    for i := 0 to |names|
      invariant fresh(packet) && packet[..] == Written(names, i)
    {
      PutNext(packet, names, i);
    }
    AllWritten(names);
  }

  /** calloc(), and the header. */
  method EmptyServerList(names: seq<Bytes>) returns (packet: array<byte>)
    ensures fresh(packet) && packet[..] == Written(names, 0)
  {
    hide ServerListHeader;
    var rest := SERVER_INFO_SIZE * |names|;
    packet := new byte[SERVER_LIST_HEADER_SIZE + rest](_ => 0);
    assert packet[..] == [] + Zeros(SERVER_LIST_HEADER_SIZE) + Zeros(rest);
    Put(packet, 0, ServerListHeader(|names|));
    PatchedMiddle([], Zeros(SERVER_LIST_HEADER_SIZE), ServerListHeader(|names|), Zeros(rest));
    assert names[..0] == [];
  }

  method PutNext(packet: array<byte>, names: seq<Bytes>, i: nat)
    requires i < |names| && packet[..] == Written(names, i)
    modifies packet
    ensures packet[..] == Written(names, i + 1)
  {
    hide Written;
    hide ServerInfo;
    hide Patched;
    PacketSplit(names, i);
    assert |packet[..]| == packet.Length;
    var offset := EntryOffset(i);
    assert packet[offset..offset + SERVER_INFO_SIZE] == packet[..][offset..][..SERVER_INFO_SIZE];
    PutServer(packet, EntryOffset(i), i, names[i]);
  }

  function EntryOffset(i: nat): nat { SERVER_LIST_HEADER_SIZE + SERVER_INFO_SIZE * i }

  lemma AllWritten(names: seq<Bytes>)
    ensures Written(names, |names|) == ServerListPacket(names)
  {
    assert names[..|names|] == names;
    assert Zeros(0) == [];
    assert ServerListHeader(|names|) + ServerInfos(names) + [] == ServerListHeader(|names|) + ServerInfos(names);
  }

  lemma PacketSplit(names: seq<Bytes>, i: nat)
    requires i < |names|
    ensures EntryOffset(i) + SERVER_INFO_SIZE <= |Written(names, i)|
    ensures Written(names, i)[EntryOffset(i)..][..SERVER_INFO_SIZE] == Zeros(SERVER_INFO_SIZE)
    ensures Patched(Written(names, i), EntryOffset(i), ServerInfo(i, names[i])) == Written(names, i + 1)
  {
    hide ServerListHeader;
    hide ServerInfo;
    hide Patched;
    var a, z := ServerListHeader(|names|) + ServerInfos(names[..i]), Zeros(SERVER_INFO_SIZE);
    var b := Zeros(SERVER_INFO_SIZE * (|names| - i - 1));
    assert Zeros(SERVER_INFO_SIZE * (|names| - i)) == z + b;
    Regroup(a, z, b);
    assert (a + z + b)[|a|..][..|z|] == z;
    PatchedMiddle(a, z, ServerInfo(i, names[i]), b);
    assert names[..i + 1][..i] == names[..i];
    Regroup(ServerListHeader(|names|), ServerInfos(names[..i]), ServerInfo(i, names[i]));
  }

  lemma InPool(stock: PipeStock, s: Splice)
    requires stock.Valid() && s in stock.splices
    ensures s.pipe != null ==> s.pipe in stock.pipes
  {}

  class Connection {
    const setup: Setup
    const stock: PipeStock

    var incoming: Socket
    var outgoing: Socket
    const spliceInOut: Splice
    const spliceOutIn: Splice

    var outgoingAddress: Option<Address>
    // Whether the ConnectSocket, the timer and the CancellablePointer are set.
    var pending: Pending

    const initialPackets: array<byte>
    var fill: nat

    var state: State
    var sendPlayServer: bool

    // What only the proof keeps: among it the filled part of initialPackets.
    ghost var log: History

    ghost predicate Shape()
      reads this, initialPackets, stock, stock.pipes, stock.splices
    {
      && stock.Valid() && spliceInOut in stock.splices && spliceOutIn in stock.splices && spliceInOut != spliceOutIn
      && initialPackets.Length == INITIAL_SIZE && fill <= INITIAL_SIZE && log.packets == initialPackets[..fill]
      && (log.status != Closed ==> incoming.defined)
    }

    ghost function View(): Conn
      reads this, spliceInOut, spliceOutIn
    {
      Conn(state, sendPlayServer, outgoingAddress, outgoing.defined, pending,
           LaneOf(incoming, outgoing, spliceInOut.content), LaneOf(outgoing, incoming, spliceOutIn.content),
           log)
    }

    ghost predicate Valid()
      reads this, initialPackets, stock, stock.pipes, stock.splices
    {
      Shape() && View() in Consistent(setup)
    }

    constructor (setup: Setup, stock: PipeStock)
      requires stock.Valid()
      modifies stock`splices
      ensures Valid() && View() == START
      ensures this.setup == setup && this.stock == stock
      ensures fresh(initialPackets) && fresh(spliceInOut) && fresh(spliceOutIn)
      ensures stock.splices == old(stock.splices) + {spliceInOut, spliceOutIn}
    {
      hide PipeStock.Valid;
      hide Consistent;
      this.setup, this.stock := setup, stock;
      incoming := UNOPENED.(defined := true, read := true);
      outgoing := UNOPENED;
      var inOut := new Splice(stock);
      var outIn := new Splice(stock);
      spliceInOut, spliceOutIn := inOut, outIn;
      outgoingAddress := None;
      pending := NOTHING.(timeout := true);
      initialPackets := new byte[83];
      fill, state, sendPlayServer := 0, Initial, false;
      log := History(Alive, [], [], [], [], [ClientAccepted]);
      new;
      StartInv(setup);
    }

    /** A call on another object: a metric, the token bucket, the job. */
    method Record(call: Call)
      modifies this`log
      ensures log == old(log).(calls := old(log).calls + [call])
    {
      log := log.(calls := log.calls + [call]);
    }

    /** The destructor's own body. */
    method HangUp()
      modifies this`log, this`incoming, this`outgoing
      ensures incoming == old(incoming).Close() && outgoing == old(outgoing).Close()
      ensures log == old(log).(calls := LogIf(LogIf(old(log).calls, pending.cancel, CancelledJob),
              old(outgoing).defined, ServerGone) + [ClientGone])
    {
      if pending.cancel {
        Record(CancelledJob);
      }
      if outgoing.defined {
        Record(ServerGone);
      }
      outgoing := outgoing.Close();
      incoming := incoming.Close();
      Record(ClientGone);
    }

    /** The destructor, with those of the members. */
    method Destroy()
      requires Shape()
      modifies this, spliceInOut, spliceOutIn, stock`idle
      ensures Shape() && View() == ProxySpec.Destroy(old(View()))
    {
      hide PipeStock.Valid;
      hide LogIf;
      HangUp();
      pending, log := NOTHING, log.(status := Closed);
      spliceInOut.Dispose(stock);
      spliceOutIn.Dispose(stock);
    }

    method OnTimeout()
      requires Shape() && pending.timeout
      modifies this, spliceInOut, spliceOutIn, stock`idle
      ensures Shape() && View() == ProxySpec.OnTimeout(old(View()))
    {
      hide ProxySpec.Destroy;
      hide PipeStock.Valid;
      pending := pending.(timeout := false);
      Record(Charged(7));
      Destroy();
    }

    method OnSocketConnectError()
      requires Shape() && pending.connect && state.Connecting?
      modifies this, spliceInOut, spliceOutIn, stock`idle
      ensures Shape() && View() == ProxySpec.OnSocketConnectError(old(View()))
    {
      hide ProxySpec.Destroy;
      hide PipeStock.Valid;
      pending := pending.(connect := false);
      Record(ServerFailed);
      Destroy();
    }

    method OnSocketConnectSuccess(sent: int)
      requires Shape() && pending.connect && state.Connecting? && fill == INITIAL_SIZE
      modifies this, spliceInOut, spliceOutIn, stock`idle
      ensures Shape() && View() == ProxySpec.OnSocketConnectSuccess(setup, old(View()), sent)
    {
      hide ProxySpec.Destroy;
      hide PipeStock.Valid;
      pending := pending.(connect := false);
      var hello := setup.HelloTo(initialPackets[..fill]);
      if sent <= 0 {
        Destroy();
        return;
      }
      var (next, _) := outgoing.Send(hello, sent);
      log := log.(sentHello := Prefix(hello, sent));
      Record(ServerConnected);
      outgoing := next.(defined := true, read := true);
      Begin();
    }

    /** What the server is expected to do next. */
    method Begin()
      modifies this`state, this`incoming
      ensures state == if sendPlayServer then SendPlayServer else State.Ready
      ensures incoming == old(incoming).(read := sendPlayServer ==> old(incoming.read))
    {
      if sendPlayServer {
        state := SendPlayServer;
      } else {
        incoming := incoming.(read := true);
        state := State.Ready;
      }
    }

    method SendServerList(reply: int)
      requires Shape() && setup.ShowsServerList() && fill == INITIAL_SIZE
      modifies this, spliceInOut, spliceOutIn, stock`idle
      ensures Shape() && View() == ProxySpec.SendServerList(setup, old(View()), reply)
    {
      hide ProxySpec.Destroy;
      hide PipeStock.Valid;
      var packet := BuildServerList(setup.Names());
      var (next, n) := incoming.Send(packet[..], reply);
      if n < 0 {
        Destroy();
        return;
      }
      log := log.(sentList := Prefix(packet[..], reply));
      state := ServerList;
      incoming := next.(read := true);
      pending := pending.(timeout := true);
    }

    /** SendAccountLoginReject, a FIN if that succeeds, and the end. */
    method RejectAndDestroy(reply: int)
      requires Shape()
      modifies this, spliceInOut, spliceOutIn, stock`idle
      ensures Shape() && View() == ProxySpec.Destroy(Reject(old(View()), reply))
    {
      hide ProxySpec.Destroy;
      hide PipeStock.Valid;
      var (next, n) := incoming.Send(REJECT, reply);
      incoming := if n >= 0 then next.ShutdownWrite() else next;
      Destroy();
    }

    method OnCheckCredentials(result: bool, io: Io)
      requires Shape() && state.CheckCredentials? && fill == INITIAL_SIZE
      modifies this, spliceInOut, spliceOutIn, stock`idle
      ensures Shape() && View() == ProxySpec.OnCheckCredentials(setup, old(View()), result, io)
    {
      hide ProxySpec.SendServerList;
      hide ProxySpec.Destroy;
      hide PipeStock.Valid;
      pending := pending.(cancel := false);
      if !result {
        Record(LoginRejected);
        Record(Charged(5));
        RejectAndDestroy(io.reply);
        return;
      }
      Record(Charged(1));
      Record(LoginAccepted);
      if setup.config.serverList != [] {
        SendServerList(io.reply);
        return;
      }
      state := Connecting;
      incoming := incoming.(read := true);
      outgoingAddress := Some(setup.config.gameServer);
      pending := pending.(connect := true);
    }

    /** The second half of ReceiveLoginPackets, once all 83 bytes are there. */
    method CheckLogin(io: Io)
      requires Shape() && state.Initial? && fill == INITIAL_SIZE
      modifies this, spliceInOut, spliceOutIn, stock`idle
      ensures Shape() && View() == ProxySpec.CheckLogin(setup, old(View()), io)
    {
      hide ProxySpec.OnCheckCredentials;
      hide Reject;
      hide ProxySpec.Destroy;
      hide PipeStock.Valid;
      if initialPackets[0] != SEED || initialPackets[SEED_SIZE] != ACCOUNT_LOGIN {
        Record(LoginMalformed);
        Record(Charged(10));
        Destroy();
        return;
      }
      var username, password := Username(initialPackets[..fill]), Password(initialPackets[..fill]);
      if !ValidUsername(username) {
        Record(LoginMalformed);
        Record(Charged(8));
        RejectAndDestroy(io.reply);
        return;
      }
      AskDatabase(username, password, io);
    }

    /** The try block of ReceiveLoginPackets. */
    method AskDatabase(username: Bytes, password: Bytes, io: Io)
      requires Shape() && state.Initial? && fill == INITIAL_SIZE
      modifies this, spliceInOut, spliceOutIn, stock`idle
      ensures Shape()
      ensures var c := ProxySpec.Log(old(View()).(state := CheckCredentials),
              AskedFor(Credentials(username, password)));
              View() == match io.lookup
                        case Throws => ProxySpec.Destroy(Reject(Charge(c, 2), io.reply))
                        case NoDatabase => ProxySpec.OnCheckCredentials(setup, c, true, io)
                        case Queued => c.(pending := c.pending.(cancel := true))
    {
      hide PipeStock.Valid;
      hide ProxySpec.Destroy;
      hide ProxySpec.OnCheckCredentials;
      hide Reject;
      state := CheckCredentials;
      Record(AskedFor(Credentials(username, password)));
      match io.lookup {
        case Throws =>
          Record(Charged(2));
          RejectAndDestroy(io.reply);
        case NoDatabase =>
          OnCheckCredentials(true, io);
        case Queued =>
          pending := pending.(cancel := true);
      }
    }

    method AppendPackets(b: Bytes)
      requires fill + |b| <= initialPackets.Length && log.packets == initialPackets[..fill]
      modifies this`fill, this`log, initialPackets
      ensures fill == old(fill) + |b| && log == old(log).(packets := old(log).packets + b)
              && log.packets == initialPackets[..fill]
    {
      forall i | 0 <= i < |b| {
        initialPackets[fill + i] := b[i];
      }
      fill, log := fill + |b|, log.(packets := log.packets + b);
    }

    method ReceiveLoginPackets(io: Io)
      requires Shape() && state.Initial? && fill < INITIAL_SIZE
      modifies this, spliceInOut, spliceOutIn, stock`idle, initialPackets
      ensures Shape() && View() == ProxySpec.ReceiveLoginPackets(setup, old(View()), io)
    {
      hide ProxySpec.CheckLogin;
      hide ProxySpec.Destroy;
      hide PipeStock.Valid;
      var (next, got) := incoming.ReadNoWait(initialPackets.Length - fill, Input(io.inputs, 0));
      if !got.Data? {
        Destroy();
        return;
      }
      incoming := next;
      AppendPackets(got.bytes);
      if fill < initialPackets.Length {
        return;
      }
      incoming := incoming.(read := false);
      pending := pending.(timeout := false);
      CheckLogin(io);
    }

    method ReceivePlayServer(io: Io)
      requires Shape() && state.ServerList? && setup.ShowsServerList() && fill == INITIAL_SIZE
      modifies this, spliceInOut, spliceOutIn, stock`idle
      ensures Shape() && View() == ProxySpec.ReceivePlayServer(setup, old(View()), io)
    {
      hide Choice;
      hide ProxySpec.Destroy;
      hide PipeStock.Valid;
      var (next, got) := incoming.ReadNoWait(PLAY_SERVER_SIZE, Input(io.inputs, 0));
      if !got.Data? {
        Destroy();
        return;
      }
      incoming := next;
      var address := ChosenAddress(got.bytes);
      if address == None {
        Destroy();
        return;
      }
      ConnectTo(address);
    }

    /** The rest of ReceivePlayServer. */
    method ConnectTo(address: Option<Address>)
      requires Shape()
      modifies this
      ensures Shape()
      ensures View() == old(View()).(state := Connecting, sendPlayServer := true, outgoingAddress := address,
                                     pending := old(pending).(connect := true, timeout := false),
                                     up := old(View()).up.(read := false))
    {
      hide PipeStock.Valid;
      outgoingAddress := address;
      incoming := incoming.(read := false);
      pending := pending.(timeout := false);
      state := Connecting;
      sendPlayServer := true;
      pending := pending.(connect := true);
    }

    /** Checks a PlayServer packet. */
    method ChosenAddress(packet: Bytes) returns (address: Option<Address>)
      ensures address == Choice(setup, packet)
    {
      if |packet| != PLAY_SERVER_SIZE || packet[0] != PLAY_SERVER
         || ReadBE16(packet[1..]) >= |setup.config.serverList| {
        return None;
      }
      return Some(setup.config.serverList[ReadBE16(packet[1..])].address);
    }

    method ReceiveServerList(io: Io)
      requires Shape() && state.SendPlayServer?
      modifies this, spliceInOut, spliceOutIn, stock`idle
      ensures Shape() && View() == ProxySpec.ReceiveServerList(old(View()), io)
    {
      hide TakeServerList;
      hide ProxySpec.Destroy;
      hide PipeStock.Valid;
      var ok, taken := TakeServerListPacket(io.inputs);
      outgoing := outgoing.(input := outgoing.input + taken);
      if !ok {
        Destroy();
        return;
      }
      Answer(io.reply);
    }

    /** The rest of ReceiveServerList. */
    method Answer(reply: int)
      requires Shape()
      modifies this, spliceInOut, spliceOutIn, stock`idle
      ensures Shape()
      ensures var c, sent := old(View()), if reply < 0 then [] else Prefix(PlayServer(0), reply);
              View() == if reply < 0 then ProxySpec.Destroy(c)
                        else c.(state := State.Ready, up := c.up.(read := true, dst := c.up.dst + sent),
                                log := c.log.(sentPlay := sent))
    {
      hide ProxySpec.Destroy;
      hide PipeStock.Valid;
      var (next, n) := outgoing.Send(PlayServer(0), reply);
      if n < 0 {
        Destroy();
        return;
      }
      outgoing, log := next, log.(sentPlay := Prefix(PlayServer(0), reply));
      incoming := incoming.(read := true);
      state := State.Ready;
    }

    /** Counts the bytes that were relayed, and ends the connection if it must. */
    method Conclude(v: Verdict, n: nat, call: Call)
      requires Shape() && v != AssertFails
      modifies this, spliceInOut, spliceOutIn, stock`idle
      ensures Shape()
      ensures View() == Settle(old(View()).(log := old(log).(calls := LogIf(old(log).calls, n > 0, call))), v)
    {
      hide PipeStock.Valid;
      hide ProxySpec.Destroy;
      if n > 0 {
        Record(call);
      }
      if v == Close {
        Destroy();
      }
    }

    /** The relaying part of OnIncomingReady. */
    method RelayIncoming(ready: Ready, io: Io)
      requires Shape() && (ready.write ==> spliceOutIn.content != [])
      requires spliceInOut.content != [] ==> outgoing.write
      modifies this, spliceInOut, spliceOutIn, stock`idle, stock`pipes, stock.pipes
      ensures Shape() && fresh(stock.pipes - old(stock.pipes))
      ensures View() == ProxySpec.RelayIncoming(old(View()), ready, io)
    {
      hide PipeStock.Valid;
      hide Relay;
      hide Settle;
      var v, n;
      v, n, incoming, outgoing := RelayReady(incoming, outgoing, spliceOutIn, spliceInOut, stock, ready, io);
      Conclude(v, n, ClientBytes(n));
    }

    /** The relaying part of OnOutgoingReady. */
    method RelayOutgoing(ready: Ready, io: Io)
      requires Shape() && (ready.write ==> spliceInOut.content != [])
      requires spliceOutIn.content != [] ==> incoming.write
      modifies this, spliceInOut, spliceOutIn, stock`idle, stock`pipes, stock.pipes
      ensures Shape() && fresh(stock.pipes - old(stock.pipes))
      ensures View() == ProxySpec.RelayOutgoing(old(View()), ready, io)
    {
      hide PipeStock.Valid;
      hide Relay;
      hide Settle;
      var v, n;
      v, n, outgoing, incoming := RelayReady(outgoing, incoming, spliceInOut, spliceOutIn, stock, ready, io);
      Conclude(v, n, ServerBytes(n));
    }

    method OnIncomingReady(ready: Ready, io: Io)
      requires Valid() && log.status == Alive && Fires(ready)
      requires (ready.read ==> incoming.read) && (ready.write ==> incoming.write)
      modifies this, spliceInOut, spliceOutIn, stock`idle, stock`pipes, stock.pipes, initialPackets
      ensures Valid() && fresh(stock.pipes - old(stock.pipes))
      ensures View() == ProxySpec.OnIncomingReady(setup, old(View()), ready, io)
    {
      hide PipeStock.Valid;
      hide Consistent;
      IncomingInv(setup, View(), ready, io);
      PendingIn(setup, View());
      BalancedIn(setup, View());
      if ready.dead {
        if state == Initial {
          Record(Charged(4));
        }
        Destroy();
        return;
      }
      // The source asserts here that no connection attempt is pending.
      if pending.connect {
        log := log.(status := Aborted);
        return;
      }
      if state == Initial {
        assert ready.read;
        ReceiveLoginPackets(io);
      } else if state == ServerList {
        assert ready.read;
        ReceivePlayServer(io);
      } else {
        RelayIncoming(ready, io);
      }
    }

    method OnOutgoingReady(ready: Ready, io: Io)
      requires Valid() && log.status == Alive && outgoing.defined && Fires(ready)
      requires (ready.read ==> outgoing.read) && (ready.write ==> outgoing.write)
      modifies this, spliceInOut, spliceOutIn, stock`idle, stock`pipes, stock.pipes
      ensures Valid() && fresh(stock.pipes - old(stock.pipes))
      ensures View() == ProxySpec.OnOutgoingReady(old(View()), ready, io)
    {
      hide PipeStock.Valid;
      hide Consistent;
      OutgoingInv(setup, View(), ready, io);
      PendingIn(setup, View());
      BalancedIn(setup, View());
      assert incoming.defined && !pending.connect;
      if ready.dead {
        Record(Charged(5));
        Destroy();
        return;
      }
      if state == SendPlayServer {
        ReceiveServerList(io);
        return;
      }
      assert state == State.Ready;
      RelayOutgoing(ready, io);
    }

    /** One turn of the event loop for this connection. */
    method Dispatch(e: Event)
      requires Valid() && Dispatched(View(), e)
      modifies this, spliceInOut, spliceOutIn, stock`idle, stock`pipes, stock.pipes, initialPackets
      ensures Valid() && View() == Step(setup, old(View()), e)
      ensures fresh(stock.pipes - old(stock.pipes))
    {
      hide PipeStock.Valid;
      hide Consistent;
      StepInv(setup, View(), e);
      PendingIn(setup, View());
      match e {
        case Incoming(r, io) => OnIncomingReady(Mask(r, incoming.read, incoming.write), io);
        case Outgoing(r, io) => OnOutgoingReady(Mask(r, outgoing.read, outgoing.write), io);
        case Timeout => OnTimeout();
        case Checked(result, io) => OnCheckCredentials(result, io);
        case Connected(sent) => OnSocketConnectSuccess(sent);
        case ConnectFailed => OnSocketConnectError();
        case Teardown => Destroy();
      }
    }
  }
}
