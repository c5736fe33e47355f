// What the proxy's packets look like on the wire, byte by byte, and what it reads
// in the packets of others: the same facts as in Packets.dfy, told a second time
// in plain numbers, and proved to agree.
module Wire {
  import opened Packets
  import opened ProxySpec

  function High(n: nat): byte { n / 256 % 256 }
  function Low(n: nat): byte { n % 256 }

  /** The packet in between: 0xbf, its size, 0x5a6a, "REMOTE_IP=" and the address. */
  function Inserted(ip: Bytes): Bytes {
    [0xbf, High(15 + |ip|), Low(15 + |ip|), 0x5a, 0x6a, 0x52, 0x45, 0x4d, 0x4f, 0x54, 0x45, 0x5f, 0x49, 0x50, 0x3d] + ip
  }

  /** How a game server is greeted for a client that has sent these 83 bytes. */
  function Greeting(s: Setup, client: Bytes): Bytes
    requires |client| == 83
  {
    if s.config.sendRemoteIp && s.remoteIp != [] then client[..21] + Inserted(s.remoteIp) + client[21..] else client
  }

  lemma HelloIsGreeting(s: Setup, client: Bytes)
    requires |client| == 83
    ensures s.HelloTo(client) == Greeting(s, client)
    ensures |Greeting(s, client)| == 83 + if s.config.sendRemoteIp && s.remoteIp != [] then 15 + |s.remoteIp| else 0
  {
    if s.config.sendRemoteIp && s.remoteIp != [] {
      assert RemoteIpPacket(s.remoteIp) == Inserted(s.remoteIp);
    } else {
      assert client[..21] + [] + client[21..] == client;
    }
  }

  function Number(high: byte, low: byte): nat { 256 * (high as int) + low as int }

  // ---- The list of game servers ----

  /** The j-th byte of the entry for a server: its number, its name up to a NUL and
      at most 31 bytes of it, NULs, two zeroes, 0xdeadbeef. */
  function EntryByte(i: nat, name: Bytes, j: nat): byte {
    if j == 0 then High(i)
    else if j == 1 then Low(i)
    else if j < 33 then (if j - 2 < |CString(name)| then CString(name)[j - 2] else 0)
    else if j < 36 then 0
    else if j == 36 then 0xde
    else if j == 37 then 0xad
    else if j == 38 then 0xbe
    else 0xef
  }

  /** The j-th byte of the packet: 0xa8, its size, 0x5d, the number of servers, and
      40 bytes for each. */
  function ListByte(list: seq<GameServer>, j: nat): byte
    requires j < 6 + 40 * |list|
  {
    if j == 0 then 0xa8
    else if j == 1 then High(6 + 40 * |list|)
    else if j == 2 then Low(6 + 40 * |list|)
    else if j == 3 then 0x5d
    else if j == 4 then High(|list|)
    else if j == 5 then Low(|list|)
    else EntryByte((j - 6) / 40, list[(j - 6) / 40].name, (j - 6) % 40)
  }

  function ListBytes(list: seq<GameServer>): (p: Bytes)
    ensures |p| == 6 + 40 * |list|
  {
    seq(6 + 40 * |list|, j requires 0 <= j < 6 + 40 * |list| => ListByte(list, j))
  }

  lemma FieldIs(name: Bytes, k: nat)
    requires k < 32
    ensures NameField(name)[k] == if k < 31 && k < |CString(name)| then CString(name)[k] else 0
  {
    hide CString;
    var text := Prefix(CString(name), NAME_SIZE - 1);
    assert k < |text| ==> NameField(name)[k] == text[k] == CString(name)[k];
  }

  lemma ByteOf(a: Bytes, b: Bytes, c: Bytes, j: nat)
    requires j < |a| + |b| + |c|
    ensures (a + b + c)[j] == if j < |a| then a[j] else if j < |a| + |b| then b[j - |a|] else c[j - |a| - |b|]
  {}

  lemma EntryParts(i: nat, name: Bytes)
    ensures ServerInfo(i, name) == [High(i), Low(i)] + NameField(name) + [0, 0, 0xde, 0xad, 0xbe, 0xef]
  {
    hide NameField;
    assert BE32(0xdeadbeef) == [0xde, 0xad, 0xbe, 0xef];
  }

  lemma EntryIs(i: nat, name: Bytes, j: nat)
    requires j < 40
    ensures ServerInfo(i, name)[j] == EntryByte(i, name, j)
  {
    hide ServerInfo;
    hide NameField;
    hide CString;
    hide High;
    hide Low;
    EntryParts(i, name);
    ByteOf([High(i), Low(i)], NameField(name), [0, 0, 0xde, 0xad, 0xbe, 0xef], j);
    if 2 <= j < 34 {
      FieldIs(name, j - 2);
    }
  }

  lemma PacketByte(s: Setup, j: nat)
    requires j < 6 + 40 * |s.config.serverList|
    ensures ServerListPacket(s.Names())[j] == ListByte(s.config.serverList, j)
  {
    hide ServerInfo;
    hide EntryByte;
    var names := s.Names();
    var h, body := ServerListHeader(|names|), ServerInfos(names);
    if j >= 6 {
      var i, k := (j - 6) / 40, (j - 6) % 40;
      assert j == 6 + 40 * i + k;
      ServerInfosAt(names, i);
      EntryIs(i, names[i], k);
      assert (h + body)[j] == body[40 * i + k] == body[40 * i..][..40][k];
    } else {
      assert (h + body)[j] == h[j];
    }
  }

  lemma PacketIsList(s: Setup)
    ensures ServerListPacket(s.Names()) == ListBytes(s.config.serverList)
  {
    hide ListByte;
    hide ServerListPacket;
    forall j: nat | j < 6 + 40 * |s.config.serverList|
      ensures ServerListPacket(s.Names())[j] == ListBytes(s.config.serverList)[j]
    {
      PacketByte(s, j);
    }
  }

  /** What counts as a complete ServerList packet at the front of a stream. */
  lemma ListLengthSays(stream: Bytes, n: nat)
    ensures ServerListLength(stream) == Some(n) <==>
              3 <= |stream| && stream[0] == 0xa8 && n == Number(stream[1], stream[2]) && 46 <= n <= |stream|
  {
    if |stream| >= 3 {
      assert stream[1..3] == [stream[1], stream[2]];
    }
  }

  // ---- The client's packets ----

  /** SEED and ACCOUNT_LOGIN, with a user name of printable ASCII characters. */
  predicate IsLogin(client: Bytes) {
    |client| == 83 && client[0] == 0xef && client[21] == 0x80 && HasName(client[22..52])
  }

  /** The first n bytes are a printable text, and then there is a NUL or nothing. */
  predicate NameEnds(field: Bytes, n: nat) {
    && 0 < n <= |field| && (n < |field| ==> field[n] == 0)
    && forall i | 0 <= i < n :: 0x20 <= field[i] < 0x7f
  }

  predicate HasName(field: Bytes) { exists n: nat | n <= |field| :: NameEnds(field, n) }

  /** A text ends at the first NUL, or with its field. */
  lemma {:induction false} TextSays(field: Bytes, n: nat)
    requires n <= |field| && (n < |field| ==> field[n] == 0) && forall i | 0 <= i < n :: field[i] != 0
    ensures CString(field) == field[..n]
  {
    if n > 0 {
      TextSays(field[1..], n - 1);
      assert field[..n] == [field[0]] + field[1..][..n - 1];
    }
  }

  lemma NameSays(field: Bytes)
    ensures ValidUsername(CString(field)) <==> HasName(field)
  {
    if ValidUsername(CString(field)) {
      NameIsThere(field);
    }
    if HasName(field) {
      var n: nat :| n <= |field| && NameEnds(field, n);
      TextSays(field, n);
      assert forall i | 0 <= i < n :: field[..n][i] == field[i];
    }
  }

  lemma NameIsThere(field: Bytes)
    requires ValidUsername(CString(field))
    ensures HasName(field)
  {
    var text := CString(field);
    assert 0 < |text| <= |field|;
    forall i | 0 <= i < |text| ensures 0x20 <= field[i] < 0x7f {
      assert Printable(text[i]) && text[i] == field[i];
    }
    assert NameEnds(field, |text|);
  }

  lemma LoginSays(client: Bytes)
    requires |client| == 83
    ensures IsLogin(client) <==> WellFormedLogin(client) && ValidUsername(Username(client))
  {
    NameSays(client[22..52]);
  }

  /** What a PlayServer packet chooses: three bytes, 0xa0 and an index in range; then
      the address of the server at that index, and otherwise nothing. */
  lemma ChoiceSays(s: Setup, packet: Bytes)
    ensures Choice(s, packet) ==
      if |packet| == 3 && packet[0] == 0xa0 && Number(packet[1], packet[2]) < |s.config.serverList|
      then Some(s.config.serverList[Number(packet[1], packet[2])].address)
      else None
  {
    if |packet| == 3 {
      assert packet[1..] == [packet[1], packet[2]];
    }
  }
}
