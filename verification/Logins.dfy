// Logins from the first byte on: when a job is created, and that every client whose
// password is right gets through, in whatever pieces its packets arrive.
module Logins {
  import opened Packets
  import opened Kernel
  import opened ProxySpec
  import opened ProxyInvariant
  import opened ProxyRuns
  import opened ProxySteps
  import opened Wire
  import opened CredentialJobs

  // ---- When a job is created ----

  /** The event that completes a well-formed login, with a database. */
  predicate AsksNow(c: Conn, e: Event) {
    && Dispatched(c, e) && e.Incoming? && c.state.Initial? && !e.ready.dead
    && LoginArrives(c, e.io) && e.io.lookup.Queued?
  }

  lemma InitialIs(s: Setup, c: Conn)
    requires c in Consistent(s) && c.log.status == Alive && c.state.Initial?
    ensures !c.pending.connect && !c.pending.cancel && !c.outgoing && c.up.read && !c.down.write && |c.log.packets| < 83
    ensures c.up.src == c.log.packets
  {}

  lemma AskingNow(s: Setup, c: Conn, e: Event)
    requires c in Consistent(s) && AsksNow(c, e)
    ensures var b := Clip(Input(e.io.inputs, 0), 83 - |c.log.packets|).bytes;
            && Step(s, c, e) == Asked(WithLogin(c, b)).(pending := WithLogin(c, b).pending.(cancel := true))
            && WithLogin(c, b).log.packets == c.up.src + b
  {
    hide Consistent;
    hide Step;
    InitialIs(s, c);
    var b := Clip(Input(e.io.inputs, 0), 83 - |c.log.packets|).bytes;
    LoginDecided(s, c, e, b);
  }

  lemma NotAskingNow(s: Setup, c: Conn, e: Event)
    requires c in Consistent(s) && !c.pending.cancel && !AsksNow(c, e)
    ensures !Step(s, c, e).pending.cancel
  {
    hide Consistent;
    hide OnCheckCredentials;
    hide Ended;
    hide CheckLogin;
    hide Dispatched;
    StepQuiet(s, c, e);
    if Dispatched(c, e) && c.state.Initial? {
      NotAskingYet(s, c, e);
    }
  }

  lemma EndedPends(c: Conn, c': Conn, calls: seq<Call>, reply: Bytes, fin: bool)
    requires Ended(c, c', calls, reply, fin)
    ensures !c'.pending.cancel
  {}

  lemma NotAskingYet(s: Setup, c: Conn, e: Event)
    requires c in Consistent(s) && Dispatched(c, e) && c.state.Initial? && !AsksNow(c, e)
    ensures !Step(s, c, e).pending.cancel
  {
    InitialIs(s, c);
    PendingIn(s, c);
    hide Consistent;
    hide Step;
    hide AsksNow;
    match e
    case Timeout => TimeoutSays(s, c);
    case Teardown => TeardownSays(s, c);
    case Incoming(ready, io) =>
      if ready.dead {
        HangupSays(s, c, e);
      } else {
        OtherInput(s, c, e);
      }
    case _ =>
  }

  lemma OtherInput(s: Setup, c: Conn, e: Event)
    requires c in Consistent(s) && Dispatched(c, e) && c.state.Initial? && !AsksNow(c, e)
    requires e.Incoming? && !e.ready.dead
    ensures !Step(s, c, e).pending.cancel
  {
    hide Consistent;
    hide Step;
    hide IsLogin;
    hide CheckLogin;
    hide Ended;
    InitialIs(s, c);
    var input := Clip(Input(e.io.inputs, 0), 83 - |c.log.packets|);
    if input.Data? && |c.log.packets| + |input.bytes| == 83 {
      LoginArrived(s, c, e, input.bytes);
      NotThisLogin(c, e, input.bytes);
      OtherLogin(s, WithLogin(c, input.bytes), e.io);
    } else {
      PartialPends(s, c, e);
    }
  }

  lemma NotThisLogin(c: Conn, e: Event, b: Bytes)
    requires Dispatched(c, e) && c.state.Initial? && !AsksNow(c, e) && e.Incoming? && !e.ready.dead
    requires Clip(Input(e.io.inputs, 0), 83 - |c.log.packets|) == Data(b)
    ensures !(IsLogin(c.log.packets + b) && e.io.lookup.Queued?)
  {
    hide IsLogin;
  }

  lemma PartialPends(s: Setup, c: Conn, e: Event)
    requires Dispatched(c, e) && e.Incoming? && c.state.Initial? && !e.ready.dead
    requires c.pending == NOTHING.(timeout := c.pending.timeout)
    requires e.ready.read && c.up.read
    requires var input := Clip(Input(e.io.inputs, 0), 83 - |c.log.packets|);
             input.Data? ==> |c.log.packets| + |input.bytes| < 83
    ensures !Step(s, c, e).pending.cancel
  {
    hide Step;
    PartialLoginSays(s, c, e);
  }

  lemma OtherLogin(s: Setup, d: Conn, io: Io)
    requires |d.log.packets| == 83 && !d.pending.cancel && !(IsLogin(d.log.packets) && io.lookup.Queued?)
    ensures !CheckLogin(s, d, io).pending.cancel
  {
    hide HasName;
    hide OnCheckCredentials;
    hide CheckLogin;
    CheckSays(s, d, io);
    CheckQuiet(s, Asked(d), true, io);
  }

  /** In every interleaving: a job is created exactly by that event, and it waits for a
      worker with the credentials from the client's own 83 bytes. */
  lemma JobCreatedIff(s: Setup, accepts: Passwords, moves: seq<Move>, e: Event)
    requires !e.Checked?
    ensures var r, r' := RaceRun(s, accepts, moves), RaceStep(s, accepts, RaceRun(s, accepts, moves), Loop(e));
            && (AsksNow(r.conn, e) <==> r'.created == r.created + 1)
            && (!AsksNow(r.conn, e) <==> r'.created == r.created)
            && (AsksNow(r.conn, e) ==>
                 && r'.conn.log.status == Alive && r'.conn.state.CheckCredentials?
                 && r'.conn.pending == NOTHING.(cancel := true)
                 && |r'.conn.up.src| == 83
                 && r'.job == Some(Job(Credentials(CString(r'.conn.up.src[22..52]), CString(r'.conn.up.src[52..82])),
                                       Waiting, false, false)))
  {
    hide RaceRun;
    hide Consistent;
    hide Step;
    hide Cancels;
    hide Destroy;
    hide AsksNow;
    RaceOwned(s, accepts, moves);
    var r := RaceRun(s, accepts, moves);
    var c := r.conn;
    if c.pending.cancel {
      StepWaiting(s, c, e);
      DestroyQuiet(c);
      WaitingAsksNot(c, e);
    } else if AsksNow(c, e) {
      StepQuiet(s, c, e);
      AskingNow(s, c, e);
      AskedLooks(s, c, e);
    } else {
      StepQuiet(s, c, e);
      NotAskingNow(s, c, e);
    }
  }

  lemma WaitingAsksNot(c: Conn, e: Event)
    ensures !c.state.Initial? ==> !AsksNow(c, e)
  {}

  lemma AskedLooks(s: Setup, c: Conn, e: Event)
    requires c in Consistent(s) && AsksNow(c, e)
    ensures var c' := Step(s, c, e);
            && c'.log.status == Alive && c'.state.CheckCredentials? && c'.pending == NOTHING.(cancel := true)
            && |c'.up.src| == 83 && c'.log.calls != []
            && c'.log.calls[|c'.log.calls| - 1] == Asking(c'.up.src)
  {
    hide Step;
    AskingNow(s, c, e);
    InitialIs(s, c);
    PendingIn(s, c);
    hide Consistent;
  }

  // ---- Everybody with the right password gets through ----

  const READ := Ready.Ready(false, true, false)

  function Arrives(piece: Bytes): Move { Loop(Incoming(READ, Io([Data(piece)], WouldBlock, WouldBlock, 0, Queued))) }

  function Chunks(pieces: seq<Bytes>): seq<Move> {
    if pieces == [] then [] else Chunks(pieces[..|pieces| - 1]) + [Arrives(pieces[|pieces| - 1])]
  }

  function Flat(pieces: seq<Bytes>): Bytes {
    if pieces == [] then [] else Flat(pieces[..|pieces| - 1]) + pieces[|pieces| - 1]
  }

  lemma RaceOn(s: Setup, accepts: Passwords, moves: seq<Move>, m: Move)
    ensures RaceRun(s, accepts, moves + [m]) == RaceStep(s, accepts, RaceRun(s, accepts, moves), m)
  {
    assert (moves + [m])[..|moves|] == moves;
  }

  /** So much of the login has arrived. */
  function Begun(client: Bytes): Race {
    Race(START.(up := START.up.(src := client), log := START.log.(packets := client)), None, 0, 0, 0, false)
  }

  lemma PieceArrives(s: Setup, accepts: Passwords, client: Bytes, piece: Bytes)
    requires piece != [] && |client + piece| < 83
    ensures RaceStep(s, accepts, Begun(client), Arrives(piece)) == Begun(client + piece)
  {
    var c, e := Begun(client).conn, Arrives(piece).event;
    assert Mask(READ, true, false) == READ && Clip(Data(piece), 83 - |client|) == Data(piece);
    PartialLoginSays(s, c, e);
    hide Step;
  }

  lemma {:induction false} PiecesArrive(s: Setup, accepts: Passwords, pieces: seq<Bytes>)
    requires [] !in pieces && |Flat(pieces)| < 83
    ensures RaceRun(s, accepts, Chunks(pieces)) == Begun(Flat(pieces))
  {
    hide RaceStep;
    if pieces != [] {
      var before, last := pieces[..|pieces| - 1], pieces[|pieces| - 1];
      PiecesArrive(s, accepts, before);
      RaceOn(s, accepts, Chunks(before), Arrives(last));
      PieceArrives(s, accepts, Flat(before), last);
    }
  }

  function Of(client: Bytes): Credentials
    requires |client| == 83
  {
    Credentials(CString(client[22..52]), CString(client[52..82]))
  }

  /** All of it has: the job is asked for. */
  function Waits(client: Bytes): Conn
    requires |client| == 83
  {
    START.(state := CheckCredentials, pending := NOTHING.(cancel := true), up := IDLE.(src := client),
           log := START.log.(packets := client, calls := [ClientAccepted, AskedFor(Of(client))]))
  }

  /** However the 83 bytes are cut up, a well-formed login creates its job. */
  lemma LoginInPieces(s: Setup, accepts: Passwords, pieces: seq<Bytes>)
    requires [] !in pieces && IsLogin(Flat(pieces))
    ensures RaceRun(s, accepts, Chunks(pieces)) ==
            Race(Waits(Flat(pieces)), Some(Job(Of(Flat(pieces)), CredentialJobs.Waiting, false, false)), 1, 0, 0, false)
  {
    hide Step;
    hide RaceRun;
    hide IsLogin;
    hide CString;
    LoginSize(Flat(pieces));
    var before, last := pieces[..|pieces| - 1], pieces[|pieces| - 1];
    var client := Flat(before);
    PiecesArrive(s, accepts, before);
    RaceOn(s, accepts, Chunks(before), Arrives(last));
    var c, e := Begun(client).conn, Arrives(last).event;
    assert Mask(READ, true, false) == READ && Clip(Data(last), 83 - |client|) == Data(last);
    AtStart(s, client);
    LoginDecided(s, c, e, last);
    LoginIs(client + last);
    OneMore(c.log.calls, Asking(client + last));
  }

  lemma LoginSize(client: Bytes)
    requires IsLogin(client)
    ensures |client| == 83
  {}

  lemma LoginIs(client: Bytes)
    requires IsLogin(client)
    ensures client[0] == 0xef && client[21] == 0x80 && HasName(client[22..52])
  {}

  lemma AtStart(s: Setup, client: Bytes)
    requires |client| < 83
    ensures var c := Begun(client).conn;
            Dispatched(c, Incoming(READ, Io([], WouldBlock, WouldBlock, 0, Queued)))
  {}

  function Begin(pieces: seq<Bytes>, io: Io): seq<Move> { Chunks(pieces) + [Take] + [Complete] + [Deliver(io)] }

  /** The worker checks the client's own credentials, and its verdict is delivered. */
  lemma Answered(s: Setup, accepts: Passwords, pieces: seq<Bytes>, io: Io)
    requires [] !in pieces && IsLogin(Flat(pieces))
    ensures |Flat(pieces)| == 83
    ensures var client := Flat(pieces);
            RaceRun(s, accepts, Begin(pieces, io)) ==
            Race(OnCheckCredentials(s, Waits(client), accepts(Of(client)), io), None, 1, 1, 1, false)
  {
    hide RaceRun;
    hide OnCheckCredentials;
    hide Cancels;
    hide IsLogin;
    hide CString;
    LoginSize(Flat(pieces));
    var client := Flat(pieces);
    LoginInPieces(s, accepts, pieces);
    RaceOn(s, accepts, Chunks(pieces), Take);
    RaceOn(s, accepts, Chunks(pieces) + [Take], Complete);
    RaceOn(s, accepts, Chunks(pieces) + [Take] + [Complete], Deliver(io));
    CheckQuiet(s, Waits(client), accepts(Of(client)), io);
  }

  /** A wrong password: the client is refused, charged 5 tokens, and that is all. */
  lemma Refused(s: Setup, accepts: Passwords, pieces: seq<Bytes>, io: Io)
    requires [] !in pieces && IsLogin(Flat(pieces)) && |Flat(pieces)| == 83 && !accepts(Of(Flat(pieces)))
    ensures var c := RaceRun(s, accepts, Begin(pieces, io)).conn;
            && c.log.status == Closed && c.up.dst == [] && c.down.dst == Refusal(io.reply)
            && c.log.calls == [ClientAccepted, AskedFor(Of(Flat(pieces))), LoginRejected, Charged(5), ClientGone]
  {
    hide RaceRun;
    hide OnCheckCredentials;
    hide IsLogin;
    hide CString;
    var client := Flat(pieces);
    Answered(s, accepts, pieces, io);
    AnsweredSays(s, Waits(client), false, io);
    assert [ClientAccepted, AskedFor(Of(client))] + [LoginRejected, Charged(5)] + [ClientGone]
        == [ClientAccepted, AskedFor(Of(client)), LoginRejected, Charged(5), ClientGone];
    assert [] + Refusal(io.reply) == Refusal(io.reply);
  }

  /** A right password, and one game server: the relay begins, with the greeting. */
  lemma GetsThrough(s: Setup, accepts: Passwords, pieces: seq<Bytes>, io: Io, sent: nat)
    requires [] !in pieces && IsLogin(Flat(pieces)) && |Flat(pieces)| == 83 && accepts(Of(Flat(pieces)))
    requires s.config.serverList == [] && sent > 0
    ensures var r := RaceRun(s, accepts, Begin(pieces, io) + [Loop(Connected(sent))]);
            && r.job == None && r.callbacks == 1
            && r.conn.log.status == Alive && r.conn.state.Ready? && r.conn.outgoing
            && r.conn.outgoingAddress == Some(s.config.gameServer)
            && r.conn.up == IDLE.(src := Flat(pieces), read := true, dst := Prefix(Greeting(s, Flat(pieces)), sent))
            && r.conn.down == IDLE.(read := true)
  {
    hide RaceRun;
    hide OnCheckCredentials;
    hide IsLogin;
    hide CString;
    hide Greeting;
    var client := Flat(pieces);
    Answered(s, accepts, pieces, io);
    AnsweredSays(s, Waits(client), true, io);
    RaceOn(s, accepts, Begin(pieces, io), Loop(Connected(sent)));
    ConnectingRace(s, accepts, RaceRun(s, accepts, Begin(pieces, io)), sent);
    assert [] + Prefix(Greeting(s, client), sent) == Prefix(Greeting(s, client), sent);
  }

  /** The client is to choose from the list it was sent. */
  predicate Choosing(s: Setup, r: Race, client: Bytes, sent: Bytes) {
    && r.job == None && r.callbacks == 1 && !r.misused && |client| == 83
    && r.conn.log.status == Alive && r.conn.state.ServerList? && !r.conn.outgoing
    && r.conn.pending == NOTHING.(timeout := true) && r.conn.log.packets == client && !r.conn.sendPlayServer
    && r.conn.up == IDLE.(src := client, read := true) && r.conn.down == IDLE.(dst := sent)
  }

  lemma ChoosingRace(s: Setup, accepts: Passwords, r: Race, client: Bytes, sent: Bytes, i: nat)
    requires Choosing(s, r, client, sent) && i < |s.config.serverList| && i < 0x1_0000
    ensures var r' := RaceStep(s, accepts, r, Loop(Chooses(i)));
            && r' == r.(conn := r'.conn)
            && r'.conn == r.conn.(state := Connecting, sendPlayServer := true,
                                  outgoingAddress := Some(s.config.serverList[i].address),
                                  pending := NOTHING.(connect := true),
                                  up := IDLE.(src := client + [0xa0, High(i), Low(i)]))
  {
    var packet: Bytes := [0xa0, High(i), Low(i)];
    assert Mask(READ, true, false) == READ && Clip(Data(packet), 3) == Data(packet);
    assert Number(packet[1], packet[2]) == i;
    ChoiceDecided(s, r.conn, Chooses(i));
    hide Step;
  }

  lemma ConnectingRace(s: Setup, accepts: Passwords, r: Race, sent: nat)
    requires r.conn.log.status == Alive && r.conn.state.Connecting? && r.conn.pending == NOTHING.(connect := true)
    requires |r.conn.log.packets| == 83 && sent > 0
    ensures var r' := RaceStep(s, accepts, r, Loop(Connected(sent)));
            var greeting := Prefix(Greeting(s, r.conn.log.packets), sent);
            && r' == r.(conn := r'.conn)
            && r'.conn == r.conn.(outgoing := true, pending := NOTHING,
                                  state := if r.conn.sendPlayServer then SendPlayServer else State.Ready,
                                  up := r.conn.up.(dst := r.conn.up.dst + greeting,
                                                   read := r.conn.up.read || !r.conn.sendPlayServer),
                                  down := r.conn.down.(read := true),
                                  log := r.conn.log.(sentHello := greeting,
                                                     calls := r.conn.log.calls + [ServerConnected]))
  {
    hide Greeting;
    ConnectedSays(s, r.conn, sent);
    OneMore(r.conn.log.calls, ServerConnected);
    hide Step;
  }

  lemma ListingRace(s: Setup, accepts: Passwords, r: Race, stream: Bytes, n: nat, reply: nat)
    requires r.conn.log.status == Alive && r.conn.state.SendPlayServer? && r.conn.pending == NOTHING
    requires |r.conn.log.packets| == 83 && r.conn.outgoing && r.conn.down.read && r.conn.down.src == []
    requires !r.conn.up.write && ServerListLength(stream) == Some(n)
    ensures var r' := RaceStep(s, accepts, r, Loop(Lists(stream, n, reply)));
            var answer := Prefix([0xa0, 0, 0], reply);
            && r' == r.(conn := r'.conn)
            && r'.conn == r.conn.(state := State.Ready, up := r.conn.up.(read := true, dst := r.conn.up.dst + answer),
                                  down := r.conn.down.(src := stream[..n]), log := r.conn.log.(sentPlay := answer))
  {
    hide TakeServerList;
    AnyListTaken(stream, n);
    assert Lists(stream, n, reply).io.inputs == Lists(stream, n, 0).io.inputs;
    assert [] + stream[..n] == stream[..n];
    assert Mask(READ, true, false) == READ;
    ServerListSays(s, r.conn, Lists(stream, n, reply));
    hide Step;
  }

  function Chooses(i: nat): Event {
    Incoming(READ, Io([Data([0xa0, High(i), Low(i)])], WouldBlock, WouldBlock, 0, Queued))
  }

  function Lists(stream: Bytes, n: nat, reply: int): Event
    requires 3 <= n <= |stream|
  {
    var inputs := [Data(stream[..1]), Data(stream[1..3])] + Pieces(stream[3..n]);
    Outgoing(READ, Io(inputs, WouldBlock, WouldBlock, reply, Queued))
  }

  /** Any stream that begins with a complete ServerList packet is understood, and only
      that packet taken. */
  lemma AnyListTaken(stream: Bytes, n: nat)
    requires ServerListLength(stream) == Some(n)
    ensures TakeServerList(Lists(stream, n, 0).io.inputs) == (stream[..n], true)
  {
    var inputs := Lists(stream, n, 0).io.inputs;
    PiecesDiscarded(stream[3..n]);
    assert inputs[2..] == Pieces(stream[3..n]);
    assert stream[..1] + stream[1..3] + stream[3..n] == stream[..n];
  }

  /** A right password, and a server chosen from the list: the relay begins, with the
      greeting and 0xa0 0 0 towards that server, our list towards the client, and the
      server's own list dropped. */
  lemma GetsThroughListed(s: Setup, accepts: Passwords, pieces: seq<Bytes>, io: Io, i: nat, sent: nat,
                          stream: Bytes, n: nat, reply: nat)
    requires [] !in pieces && IsLogin(Flat(pieces)) && |Flat(pieces)| == 83 && accepts(Of(Flat(pieces)))
    requires i < |s.config.serverList| && i < 0x1_0000 && io.reply >= 0 && sent > 0
    requires ServerListLength(stream) == Some(n)
    ensures var moves := Begin(pieces, io) + [Loop(Chooses(i))] + [Loop(Connected(sent))]
                         + [Loop(Lists(stream, n, reply))];
            var r := RaceRun(s, accepts, moves);
            && r.job == None && r.callbacks == 1
            && r.conn.log.status == Alive && r.conn.state.Ready? && r.conn.outgoing
            && r.conn.outgoingAddress == Some(s.config.serverList[i].address)
            && r.conn.up == IDLE.(src := Flat(pieces) + [0xa0, High(i), Low(i)], read := true,
                                  dst := Prefix(Greeting(s, Flat(pieces)), sent) + Prefix([0xa0, 0, 0], reply))
            && r.conn.down == IDLE.(src := stream[..n], read := true,
                                    dst := Prefix(ListBytes(s.config.serverList), io.reply))
  {
    hide RaceRun;
    hide OnCheckCredentials;
    hide IsLogin;
    hide CString;
    hide Greeting;
    hide ListByte;
    hide TakeServerList;
    hide Lists;
    hide Cancels;
    var client := Flat(pieces);
    Answered(s, accepts, pieces, io);
    AnsweredSays(s, Waits(client), true, io);
    var m1 := Begin(pieces, io);
    var m2 := m1 + [Loop(Chooses(i))];
    var m3 := m2 + [Loop(Connected(sent))];
    RaceOn(s, accepts, m1, Loop(Chooses(i)));
    RaceOn(s, accepts, m2, Loop(Connected(sent)));
    RaceOn(s, accepts, m3, Loop(Lists(stream, n, reply)));
    assert [] + Prefix(ListBytes(s.config.serverList), io.reply) == Prefix(ListBytes(s.config.serverList), io.reply);
    ChoosingRace(s, accepts, RaceRun(s, accepts, m1), client, Prefix(ListBytes(s.config.serverList), io.reply), i);
    ConnectingRace(s, accepts, RaceRun(s, accepts, m2), sent);
    assert [] + Prefix(Greeting(s, client), sent) == Prefix(Greeting(s, client), sent);
    ListingRace(s, accepts, RaceRun(s, accepts, m3), stream, n, reply);
  }

  // ---- When a client does not wait ----

  /** The connection ends while its job is awaited: a job that no worker has taken is
      destroyed at once; any other one is marked, and destroyed when it is done. */
  lemma GivenUp(s: Setup, accepts: Passwords, moves: seq<Move>, io: Io)
    requires var r := RaceRun(s, accepts, moves); r.job.Some? && !r.job.value.canceled
    ensures var r, r' := RaceRun(s, accepts, moves), RaceStep(s, accepts, RaceRun(s, accepts, moves), Loop(Teardown));
            && r'.conn.log.status == Closed && r'.callbacks == 0
            && r'.job == (if r.job.value.phase.Waiting? then None else Some(r.job.value.(canceled := true)))
            && r'.deleted == (if r.job.value.phase.Waiting? then 1 else 0)
            && (r.job.value.phase.Finished? ==>
                 RaceStep(s, accepts, r', Deliver(io)) == r'.(job := None, deleted := 1))
  {
    hide RaceRun;
    hide Consistent;
    hide Cancels;
    hide Destroy;
    RaceOwned(s, accepts, moves);
    var r := RaceRun(s, accepts, moves);
    var e := Checked(false, io);
    StepWaiting(s, r.conn, e);
    DestroyQuiet(r.conn);
    TeardownSays(s, r.conn);
  }
}
