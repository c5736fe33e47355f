// The Ultima Online packets that the login proxy reads, writes and inserts
// (src/uo/Packets.hxx, src/uo/Command.hxx, src/uo/String.hxx, src/Validate.hxx).
module Packets {

  type byte = x: int | 0 <= x < 0x100
  type Bytes = seq<byte>

  const ACCOUNT_LOGIN: byte := 0x80
  const ACCOUNT_LOGIN_REJECT: byte := 0x82
  const PLAY_SERVER: byte := 0xa0
  const SERVER_LIST: byte := 0xa8
  const EXTENDED: byte := 0xbf
  const SEED: byte := 0xef

  const SEED_SIZE := 21
  const INITIAL_SIZE := 83
  const PLAY_SERVER_SIZE := 3
  const SERVER_INFO_SIZE := 40
  const SERVER_LIST_HEADER_SIZE := 6
  const SERVER_LIST_MIN_SIZE := SERVER_LIST_HEADER_SIZE + SERVER_INFO_SIZE
  const NAME_SIZE := 32

  function Min(a: int, b: int): int { if a < b then a else b }

  /** The first `n` bytes, or all of them if there are fewer. */
  function Prefix(b: Bytes, n: nat): Bytes { if n < |b| then b[..n] else b }

  function Zeros(n: nat): Bytes { seq(n, _ => 0) }

  // PackedBE16 and PackedBE32 keep the low 16 and 32 bits.
  function BE16(v: nat): (r: Bytes) { [v / 0x100 % 0x100, v % 0x100] }

  function BE32(v: nat): (r: Bytes) { BE16(v / 0x1_0000) + BE16(v) }

  function ReadBE16(b: Bytes): nat
    requires |b| == 2
  {
    b[0] as int * 0x100 + b[1] as int
  }

  lemma BE16RoundTrip(v: nat)
    ensures ReadBE16(BE16(v)) == v % 0x1_0000
  {
    var high, low := v / 0x100, v % 0x100;
    assert v == high * 0x100 + low;
    var top, middle := high / 0x100, high % 0x100;
    assert high == top * 0x100 + middle;
    ModIs(v, top, middle * 0x100 + low);
  }

  lemma ModIs(v: nat, top: nat, rest: nat)
    requires v == top * 0x1_0000 + rest && rest < 0x1_0000
    ensures v % 0x1_0000 == rest
  {}

  /** UO::ExtractString, and also the reading of a C string. */
  function CString(b: Bytes): (s: Bytes)
    ensures s <= b && 0 !in s
    ensures |s| < |b| ==> b[|s|] == 0
  {
    if b == [] || b[0] == 0 then [] else [b[0]] + CString(b[1..])
  }

  predicate Printable(c: byte) { 0x20 <= c < 0x7f }

  predicate ValidUsername(s: Bytes) { s != [] && forall i | 0 <= i < |s| :: Printable(s[i]) }

  // ---- The 83 bytes a client begins with: SEED, then ACCOUNT_LOGIN ----

  predicate WellFormedLogin(packets: Bytes)
    requires |packets| == INITIAL_SIZE
  {
    packets[0] == SEED && packets[SEED_SIZE] == ACCOUNT_LOGIN
  }

  function Username(packets: Bytes): Bytes
    requires |packets| == INITIAL_SIZE
  {
    CString(packets[22..52])
  }

  function Password(packets: Bytes): Bytes
    requires |packets| == INITIAL_SIZE
  {
    CString(packets[52..82])
  }

  // "REMOTE_IP="
  const REMOTE_IP: Bytes := [0x52, 0x45, 0x4d, 0x4f, 0x54, 0x45, 0x5f, 0x49, 0x50, 0x3d]

  function RemoteIpPacket(ip: Bytes): Bytes {
    [EXTENDED] + BE16(5 + |REMOTE_IP| + |ip|) + BE16(0x5a6a) + REMOTE_IP + ip
  }

  /** What the game server is sent first: the client's own packets, with a
      REMOTE_IP packet in between if that is configured and an address is known. */
  function Hello(packets: Bytes, sendRemoteIp: bool, ip: Bytes): (h: Bytes)
    requires |packets| == INITIAL_SIZE
    ensures |h| >= INITIAL_SIZE
  {
    packets[..SEED_SIZE] + (if sendRemoteIp && ip != [] then RemoteIpPacket(ip) else []) + packets[SEED_SIZE..]
  }

  /** A server that cuts out the inserted packet by its own length field is left
      with exactly the client's bytes; the length field is right up to 65520
      address bytes. */
  lemma HelloRoundTrip(packets: Bytes, ip: Bytes)
    requires |packets| == INITIAL_SIZE && ip != []
    ensures var h := Hello(packets, true, ip);
            var n := ReadBE16(h[SEED_SIZE + 1..SEED_SIZE + 3]);
            |ip| <= 65520 <==> |h| == INITIAL_SIZE + n && h[..SEED_SIZE] + h[SEED_SIZE + n..] == packets
  {
    var h := Hello(packets, true, ip);
    var size := |RemoteIpPacket(ip)|;
    assert h[SEED_SIZE + 1..SEED_SIZE + 3] == BE16(size);
    BE16RoundTrip(size);
    assert h == packets[..SEED_SIZE] + RemoteIpPacket(ip) + packets[SEED_SIZE..];
    if |ip| <= 65520 {
      assert h[..SEED_SIZE] + h[SEED_SIZE + size..] == packets;
    }
  }

  const REJECT: Bytes := [ACCOUNT_LOGIN_REJECT, 0x03]

  function PlayServer(index: nat): (p: Bytes) { [PLAY_SERVER] + BE16(index) }

  // ---- The ServerList packet ----

  /** snprintf("%s") into a zeroed 32-byte field. */
  function NameField(name: Bytes): (f: Bytes)
    ensures |f| == NAME_SIZE
  {
    var text := Prefix(CString(name), NAME_SIZE - 1);
    text + Zeros(NAME_SIZE - |text|)
  }

  function ServerInfo(index: nat, name: Bytes): (e: Bytes)
    ensures |e| == SERVER_INFO_SIZE
  {
    BE16(index) + NameField(name) + [0, 0] + BE32(0xdeadbeef)
  }

  function ServerInfos(names: seq<Bytes>): (e: Bytes)
    ensures |e| == SERVER_INFO_SIZE * |names|
  {
    if names == [] then []
    else ServerInfos(names[..|names| - 1]) + ServerInfo(|names| - 1, names[|names| - 1])
  }

  function ServerListHeader(n: nat): (h: Bytes)
    ensures |h| == SERVER_LIST_HEADER_SIZE
  {
    [SERVER_LIST] + BE16(SERVER_LIST_HEADER_SIZE + SERVER_INFO_SIZE * n) + [0x5d] + BE16(n)
  }

  function ServerListPacket(names: seq<Bytes>): (p: Bytes)
    ensures |p| == SERVER_LIST_HEADER_SIZE + SERVER_INFO_SIZE * |names|
  {
    ServerListHeader(|names|) + ServerInfos(names)
  }

  /** How long a ServerList packet at the front of `stream` is, as the receiver
      decides it: command, length field, at least one server, all bytes present. */
  function ServerListLength(stream: Bytes): Option<nat> {
    if |stream| < 3 || stream[0] != SERVER_LIST then None
    else
      var length := ReadBE16(stream[1..3]);
      if length < SERVER_LIST_MIN_SIZE || |stream| < length then None else Some(length)
  }

  datatype Option<+T> = None | Some(value: T)

  /** The receiver cuts the sender's packet off any stream at exactly the right
      place if and only if there are at most 1638 servers: beyond that the 16-bit
      length field wraps. */
  lemma ServerListFraming(names: seq<Bytes>, rest: Bytes)
    requires names != []
    ensures var p := ServerListPacket(names);
            ServerListLength(p + rest) == Some(|p|) <==> |names| <= 1638
  {
    hide ServerInfos;
    var p := ServerListPacket(names);
    assert (p + rest)[1..3] == BE16(|p|);
    BE16RoundTrip(|p|);
  }

  lemma {:induction false} ServerInfosAt(names: seq<Bytes>, i: nat)
    requires i < |names|
    ensures SERVER_INFO_SIZE * (i + 1) <= |ServerInfos(names)|
    ensures ServerInfos(names)[SERVER_INFO_SIZE * i..][..SERVER_INFO_SIZE] == ServerInfo(i, names[i])
  {
    hide ServerInfo;
    var last := |names| - 1;
    var init, e := ServerInfos(names[..last]), ServerInfo(last, names[last]);
    EntryAt(init, e, i);
    if i < last {
      ServerInfosAt(names[..last], i);
    }
  }

  lemma EntryAt(init: Bytes, e: Bytes, i: nat)
    requires |e| == SERVER_INFO_SIZE && SERVER_INFO_SIZE * i <= |init|
    ensures SERVER_INFO_SIZE * i == |init| ==> (init + e)[SERVER_INFO_SIZE * i..][..SERVER_INFO_SIZE] == e
    ensures SERVER_INFO_SIZE * (i + 1) <= |init| ==>
              (init + e)[SERVER_INFO_SIZE * i..][..SERVER_INFO_SIZE] == init[SERVER_INFO_SIZE * i..][..SERVER_INFO_SIZE]
  {}

  lemma ServerInfoFields(index: nat, name: Bytes)
    ensures var e := ServerInfo(index, name);
            && ReadBE16(e[..2]) == index % 0x1_0000
            && CString(e[2..2 + NAME_SIZE]) == Prefix(CString(name), NAME_SIZE - 1)
  {
    var e := ServerInfo(index, name);
    BE16RoundTrip(index);
    assert e[..2] == BE16(index);
    assert e[2..2 + NAME_SIZE] == NameField(name);
    var text := Prefix(CString(name), NAME_SIZE - 1);
    CStringOfPadded(text, NAME_SIZE - |text|);
  }

  /** A client finds server `i` at its place in the packet, with its name up to
      the first NUL byte and cut to 31 bytes. */
  lemma ServerListEntry(names: seq<Bytes>, i: nat)
    requires i < |names|
    ensures var e := ServerListPacket(names)[SERVER_LIST_HEADER_SIZE + SERVER_INFO_SIZE * i..][..SERVER_INFO_SIZE];
            && ReadBE16(e[..2]) == i % 0x1_0000
            && CString(e[2..2 + NAME_SIZE]) == Prefix(CString(names[i]), NAME_SIZE - 1)
  {
    ServerInfosAt(names, i);
    ServerInfoFields(i, names[i]);
    var h, body := ServerListHeader(|names|), ServerInfos(names);
    assert (h + body)[|h| + SERVER_INFO_SIZE * i..] == body[SERVER_INFO_SIZE * i..];
  }

  lemma {:induction false} CStringOfPadded(text: Bytes, padding: nat)
    requires 0 !in text && padding > 0
    ensures CString(text + Zeros(padding)) == text
  {
    if text == [] {
      assert text + Zeros(padding) == Zeros(padding);
    } else {
      assert (text + Zeros(padding))[1..] == text[1..] + Zeros(padding);
      CStringOfPadded(text[1..], padding);
    }
  }
}
