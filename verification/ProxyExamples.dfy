// Runs of the login proxy in which it does not do what one might expect of it.
module ProxyExamples {
  import opened Packets
  import opened Kernel
  import opened ProxySpec
  import opened ProxyInvariant
  import opened ProxyRuns

  /** One game server, and one that is chosen from a list. */
  const DIRECT := Setup(Config(1, [], false), [])
  const LISTED := Setup(Config(1, [GameServer([0x41], 2)], false), [])

  const LOGIN: Bytes := [SEED] + Zeros(20) + [ACCOUNT_LOGIN, 0x41] + Zeros(60)
  const NO_IO := Io([], WouldBlock, WouldBlock, 0, NoDatabase)
  const READ := Ready.Ready(false, true, false)
  const WRITE := Ready.Ready(false, false, true)

  const LOGS_IN := Incoming(READ, NO_IO.(inputs := [Data(LOGIN)]))

  lemma RunOn(s: Setup, events: seq<Event>, e: Event)
    ensures Run(s, events + [e]) == Step(s, Run(s, events), e)
  {
    assert (events + [e])[..|events|] == events;
  }

  /** The client has logged in, and the game server is being contacted. */
  predicate Contacting(s: Setup, c: Conn) {
    && c.log.status == Alive && c.state.Connecting? && !c.outgoing && c.pending == NOTHING.(connect := true)
    && c.log.packets == LOGIN && LOGIN <= c.up.src && c.log.sentHello == []
    && c.up == IDLE.(src := c.up.src, read := !c.sendPlayServer) && c.down == IDLE
    && (c.sendPlayServer <==> s.ShowsServerList()) && |c.up.src| == HandshakeSize(s) && c.log.sentList == []
  }

  lemma LoginParts()
    ensures WellFormedLogin(LOGIN) && ValidUsername(Username(LOGIN))
  {
    assert LOGIN[22..52] == [0x41] + Zeros(29);
    CStringOfPadded([0x41], 29);
  }

  lemma LoggedInDirect()
    ensures Contacting(DIRECT, Step(DIRECT, START, LOGS_IN))
  {
    LoginParts();
    hide Username;
    hide Password;
    assert [] + LOGIN == LOGIN && Clip(Data(LOGIN), INITIAL_SIZE) == Data(LOGIN);
    assert Mask(READ, true, false) == READ;
  }

  // ---- An assertion that fails ----

  /** A client that sends its login and one more packet without waiting. */
  lemma EarlyDataExample(more: Bytes)
    ensures Run(DIRECT, [LOGS_IN, Incoming(READ, NO_IO.(inputs := [Data(more)]))]).log.status == Aborted
  {
    hide Step;
    var e := Incoming(READ, NO_IO.(inputs := [Data(more)]));
    RunOn(DIRECT, [], LOGS_IN);
    RunOn(DIRECT, [LOGS_IN], e);
    assert [] + [LOGS_IN] == [LOGS_IN] && [LOGS_IN] + [e] == [LOGS_IN, e];
    LoggedInDirect();
    ContactingAborts(Run(DIRECT, [LOGS_IN]), e);
  }

  lemma ContactingAborts(c: Conn, e: Event)
    requires Contacting(DIRECT, c) && e.Incoming? && e.ready == READ
    ensures Step(DIRECT, c, e).log.status == Aborted
  {}

  // ---- Streams that are not intact ----

  /** The kernel takes one byte of the client's packets, and the relay begins. */
  lemma ShortHelloExample()
    ensures var c := Run(DIRECT, [LOGS_IN, Connected(1)]);
            && c.log.status == Alive && c.state.Ready? && |c.up.src| == INITIAL_SIZE
            && c.up.dst + c.up.buffer != ServerIsDue(DIRECT, c.up.src)
  {
    hide Step;
    RunOn(DIRECT, [], LOGS_IN);
    RunOn(DIRECT, [LOGS_IN], Connected(1));
    assert [] + [LOGS_IN] == [LOGS_IN] && [LOGS_IN] + [Connected(1)] == [LOGS_IN, Connected(1)];
    LoggedInDirect();
    ContactedBy(DIRECT, Run(DIRECT, [LOGS_IN]), 1);
  }

  /** What a connection looks like once `sent` bytes of its packets were taken. */
  lemma ContactedBy(s: Setup, c: Conn, sent: nat)
    requires Contacting(s, c) && sent > 0
    ensures var c' := Step(s, c, Connected(sent));
            && c'.log.status == Alive && c'.state == (if s.ShowsServerList() then SendPlayServer else State.Ready)
            && c'.outgoing && c'.pending == NOTHING && c'.sendPlayServer == c.sendPlayServer
            && c'.up == IDLE.(src := c.up.src, read := !s.ShowsServerList(), dst := Prefix(s.HelloTo(LOGIN), sent))
            && c'.down == IDLE.(read := true) && c'.log.packets == LOGIN && c'.log.sentList == []
  {
    hide Hello;
    assert [] + Prefix(s.HelloTo(LOGIN), sent) == Prefix(s.HelloTo(LOGIN), sent);
  }

  const CHOOSES := Incoming(READ, NO_IO.(inputs := [Data(PlayServer(0))]))
  const LISTS := Outgoing(READ, NO_IO.(inputs := [Data([SERVER_LIST]), Data([0, 46]), Data(Zeros(43))]))
  const UNANSWERED := [LOGS_IN, CHOOSES, Connected(83), LISTS]

  /** The kernel takes none of our ServerList and none of PlayServer(0), and the
      relay begins: neither side has got what it is due. */
  lemma ShortRepliesExample()
    ensures var c := Run(LISTED, UNANSWERED);
            && c.log.status == Alive && c.state.Ready? && |c.up.src| == HandshakeSize(LISTED)
            && ServerListLength(c.down.src).Some?
            && c.up.dst + c.up.buffer != ServerIsDue(LISTED, c.up.src)
            && c.down.dst + c.down.buffer != ClientIsDue(LISTED, c.down.src)
  {
    hide Step;
    RunOn(LISTED, [], LOGS_IN);
    RunOn(LISTED, [LOGS_IN], CHOOSES);
    RunOn(LISTED, [LOGS_IN, CHOOSES], Connected(83));
    RunOn(LISTED, [LOGS_IN, CHOOSES, Connected(83)], LISTS);
    assert [] + [LOGS_IN] == [LOGS_IN] && [LOGS_IN] + [CHOOSES] == [LOGS_IN, CHOOSES];
    assert [LOGS_IN, CHOOSES] + [Connected(83)] == [LOGS_IN, CHOOSES, Connected(83)];
    assert [LOGS_IN, CHOOSES, Connected(83)] + [LISTS] == UNANSWERED;
    LoggedInListed();
    ChosenListed(Run(LISTED, [LOGS_IN]));
    ContactedBy(LISTED, Run(LISTED, [LOGS_IN, CHOOSES]), 83);
    ReadyListed(Run(LISTED, [LOGS_IN, CHOOSES, Connected(83)]));
  }

  predicate Choosing(c: Conn) {
    && c.log.status == Alive && c.state.ServerList? && !c.outgoing && c.pending == NOTHING.(timeout := true)
    && c.log.packets == LOGIN && c.log.sentHello == [] && c.log.sentList == [] && !c.sendPlayServer
    && c.up == IDLE.(src := LOGIN, read := true) && c.down == IDLE
  }

  lemma LoggedInListed()
    ensures Choosing(Step(LISTED, START, LOGS_IN))
  {
    LoginParts();
    hide Username;
    hide Password;
    hide ServerListPacket;
    assert [] + LOGIN == LOGIN && Clip(Data(LOGIN), INITIAL_SIZE) == Data(LOGIN);
    assert Mask(READ, true, false) == READ;
  }

  lemma ChosenListed(c: Conn)
    requires Choosing(c)
    ensures Contacting(LISTED, Step(LISTED, c, CHOOSES))
  {
    assert Mask(READ, true, false) == READ;
    BE16RoundTrip(0);
    assert PlayServer(0)[1..] == BE16(0);
    assert Choice(LISTED, PlayServer(0)) == Some(2);
  }

  lemma ReadyListed(c: Conn)
    requires c.log.status == Alive && c.state.SendPlayServer? && c.outgoing && c.pending == NOTHING
    requires c.up == IDLE.(src := c.up.src, dst := Prefix(LISTED.HelloTo(LOGIN), 83)) && c.down == IDLE.(read := true)
    requires c.log.packets == LOGIN && c.log.sentList == [] && |c.up.src| == 86 && LOGIN <= c.up.src
    ensures var c' := Step(LISTED, c, LISTS);
            && c'.log.status == Alive && c'.state.Ready? && c'.up.src == c.up.src
            && ServerListLength(c'.down.src) == Some(46) && |c'.down.src| == 46
            && |c'.up.dst + c'.up.buffer| < |ServerIsDue(LISTED, c.up.src)|
            && |c'.down.dst + c'.down.buffer| < |ClientIsDue(LISTED, c'.down.src)|
  {
    ListTakenWhole();
    hide TakeServerList;
    assert Mask(READ, true, false) == READ;
    assert [] + ([SERVER_LIST, 0, 46] + Zeros(43)) == [SERVER_LIST, 0, 46] + Zeros(43);
  }

  lemma ListTakenWhole()
    ensures TakeServerList(LISTS.io.inputs) == ([SERVER_LIST, 0, 46] + Zeros(43), true)
    ensures ServerListLength([SERVER_LIST, 0, 46] + Zeros(43)) == Some(46)
  {
    var inputs := LISTS.io.inputs;
    assert inputs[2..] == [Data(Zeros(43))];
    assert Discarded([Data(Zeros(43))], 43) == (true, Zeros(43)) by {
      assert [Data(Zeros(43))][1..] == [];
      assert Zeros(43) + [] == Zeros(43);
    }
    assert ([SERVER_LIST, 0, 46] + Zeros(43))[1..3] == [0, 46];
    assert [SERVER_LIST] + [0, 46] + Zeros(43) == [SERVER_LIST, 0, 46] + Zeros(43);
  }

  // ---- The stall ----

  const CLIENT_SENDS := Incoming(READ, NO_IO.(inputs := [Data([0])]))
  const SERVER_TAKES := Outgoing(WRITE, NO_IO.(drain := Took(1)))
  const STALLING := [LOGS_IN, Connected(83), CLIENT_SENDS, SERVER_TAKES]

  /** One byte that has to wait once: afterwards the pipe is empty, READ is off,
      and by StallIsForever the client is never read from again. */
  lemma StallExample(more: seq<Event>)
    ensures var c := Run(DIRECT, STALLING);
            && c.log.status == Alive && c.state.Ready? && c.up.buffer == [] && !c.up.read
            && Run(DIRECT, STALLING + more).up.src == c.up.src
  {
    hide Step;
    RunOn(DIRECT, [], LOGS_IN);
    RunOn(DIRECT, [LOGS_IN], Connected(83));
    RunOn(DIRECT, [LOGS_IN, Connected(83)], CLIENT_SENDS);
    RunOn(DIRECT, [LOGS_IN, Connected(83), CLIENT_SENDS], SERVER_TAKES);
    assert [] + [LOGS_IN] == [LOGS_IN] && [LOGS_IN] + [Connected(83)] == [LOGS_IN, Connected(83)];
    assert [LOGS_IN, Connected(83)] + [CLIENT_SENDS] == [LOGS_IN, Connected(83), CLIENT_SENDS];
    assert [LOGS_IN, Connected(83), CLIENT_SENDS] + [SERVER_TAKES] == STALLING;
    LoggedInDirect();
    ContactedBy(DIRECT, Run(DIRECT, [LOGS_IN]), 83);
    Blocked(Run(DIRECT, [LOGS_IN, Connected(83)]));
    Drained(Run(DIRECT, [LOGS_IN, Connected(83), CLIENT_SENDS]));
    StallIsForever(DIRECT, STALLING, more);
  }

  predicate Relaying(c: Conn) {
    && c.log.status == Alive && c.state.Ready? && c.outgoing && c.pending == NOTHING && c.log.packets == LOGIN
    && c.down == IDLE.(read := true)
  }

  lemma Blocked(c: Conn)
    requires Relaying(c) && c.up.read && c.up.buffer == [] && !c.up.write
    ensures var c' := Step(DIRECT, c, CLIENT_SENDS);
            Relaying(c') && !c'.up.read && c'.up.buffer == [0] && c'.up.write
  {
    assert Mask(READ, true, false) == READ;
    assert Clip(Data([0]), 0x4000_0000) == Data([0]);
    assert [] + [0] == [0];
  }

  lemma Drained(c: Conn)
    requires Relaying(c) && !c.up.read && c.up.buffer == [0] && c.up.write
    ensures var c' := Step(DIRECT, c, SERVER_TAKES);
            Relaying(c') && !c'.up.read && c'.up.buffer == []
  {
    assert Mask(WRITE, true, true) == WRITE;
  }

  // ---- The code's intent ----

  /** DoSpliceSend as it might have been meant: READ is scheduled again when the
      pipe has been emptied. */
  function SpliceSendAgain(l: Lane, r: Sent): (Lane, Verdict) {
    var (l', v) := SpliceSend(l, r);
    (if v == Keep && l'.buffer == [] then l'.(read := true) else l', v)
  }

  function SpliceReceiveAgain(l: Lane, r: Received, forward: Sent): (Lane, Verdict) {
    match Clip(r, 0x4000_0000)
    case Data(b) => SpliceSendAgain(l.(src := l.src + b, buffer := l.buffer + b), forward)
    case _ => (SpliceReceive(l, r, forward).0, SpliceReceive(l, r, forward).1)
  }

  /** The two things that happen to a lane: its destination is ready, or its source. */
  datatype Turn = Drain(sent: Sent) | Fill(received: Received, forward: Sent)

  /** An event loop turn for a lane that relays, if its flag is scheduled. */
  function TurnAgain(l: Lane, t: Turn): (Lane, Verdict) {
    match t
    case Drain(sent) => if l.write then SpliceSendAgain(l, sent) else (l, Keep)
    case Fill(received, forward) => if l.read then SpliceReceiveAgain(l, received, forward) else (l, Keep)
  }

  /** The lane after some turns; None once the connection has ended. */
  function TurnsAgain(l: Lane, turns: seq<Turn>): Option<Lane> {
    if turns == [] then Some(l)
    else
      var before := TurnsAgain(l, turns[..|turns| - 1]);
      if before.None? then None
      else
        var (l', v) := TurnAgain(before.value, turns[|turns| - 1]);
        if v == Keep then Some(l') else None
  }

  /** With that, the relay resumes after every drain, on every run of a lane: READ
      is scheduled exactly while the pipe is empty, and WRITE exactly while it is
      not.  Of the code as it is, ReadScheduledIff says how far that holds. */
  lemma {:induction false} ResumesAfterDrain(l: Lane, turns: seq<Turn>)
    requires l.buffer == [] && l.read && !l.write
    ensures var end := TurnsAgain(l, turns);
            end.Some? ==> (end.value.read <==> end.value.buffer == []) && (end.value.write <==> end.value.buffer != [])
  {
    if turns != [] {
      ResumesAfterDrain(l, turns[..|turns| - 1]);
    }
  }
}
