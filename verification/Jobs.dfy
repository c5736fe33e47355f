// The credentials job that the event loop shares with a worker thread
// (src/Database.cxx), next to the connection that waits for it: every
// interleaving of the two threads.
module CredentialJobs {
  import opened Packets
  import opened Kernel
  import opened ProxySpec
  import opened ProxyInvariant
  import opened Wire

  datatype Phase = Waiting | Busy | Finished

  /** One CheckCredentialsJob; `result` is only meaningful once finished. */
  datatype Job = Job(credentials: Credentials, phase: Phase, canceled: bool, result: bool)

  /** A connection, its job while that exists, how often a job was created,
      destroyed, and called back, and whether Cancel() or the callback was ever
      invoked outside their contracts. */
  datatype Race = Race(conn: Conn, job: Option<Job>, created: nat, deleted: nat, callbacks: nat, misused: bool)

  type Passwords = Credentials -> bool

  /** `Take` and `Complete` are the worker thread's; the loop thread handles any
      event of the connection and delivers finished jobs. */
  datatype Move = Loop(event: Event) | Take | Complete | Deliver(io: Io)

  /** How often the connection has cancelled a job. */
  function Cancels(calls: seq<Call>): nat {
    if calls == [] then 0
    else Cancels(calls[..|calls| - 1]) + if calls[|calls| - 1].CancelledJob? then 1 else 0
  }

  lemma OneMore(calls: seq<Call>, call: Call)
    ensures Cancels(calls + [call]) == Cancels(calls) + if call.CancelledJob? then 1 else 0
  {
    assert (calls + [call])[..|calls|] == calls;
  }

  /** CheckCredentialsJob::Cancel: ThreadQueue::Cancel succeeds exactly while no
      worker has taken the job. */
  function Cancelled(j: Job): Option<Job> {
    if j.phase.Waiting? then None else Some(j.(canceled := true))
  }

  /** CheckCredentialsJob::Run, on the worker thread. */
  function Ran(j: Job, accepts: Passwords): Job { j.(phase := Finished, result := accepts(j.credentials)) }

  function CancelJob(r: Race): Race {
    match r.job
    case None => r.(misused := true)
    case Some(j) => r.(job := Cancelled(j), deleted := r.deleted + if Cancelled(j).None? then 1 else 0)
  }

  /** What a step of the connection asks of its job. */
  function Follow(r: Race, c': Conn): Race {
    var r' := r.(conn := c');
    if Cancels(r.conn.log.calls) < Cancels(c'.log.calls) then CancelJob(r')
    else if !r.conn.pending.cancel && c'.pending.cancel && c'.log.calls != []
        && c'.log.calls[|c'.log.calls| - 1].AskedFor? then
      r'.(job := Some(Job(c'.log.calls[|c'.log.calls| - 1].credentials, Waiting, false, false)),
          created := r.created + 1,
          misused := r.misused || r.job.Some?)
    else r'
  }

  /** CheckCredentialsJob::Done, with the callback into the connection. */
  function Done(s: Setup, r: Race, io: Io): Race
    requires r.job.Some?
  {
    var gone := r.(job := None, deleted := r.deleted + 1);
    if r.job.value.canceled then gone
    else
      var e := Checked(r.job.value.result, io);
      var c' := Step(s, r.conn, e);
      gone.(conn := c', callbacks := r.callbacks + 1,
            misused := r.misused || !Dispatched(r.conn, e) || Cancels(r.conn.log.calls) < Cancels(c'.log.calls))
  }

  function RaceStep(s: Setup, accepts: Passwords, r: Race, m: Move): Race {
    match m
    case Loop(e) => if e.Checked? then r else Follow(r, Step(s, r.conn, e))
    case Take => if r.job.Some? && r.job.value.phase.Waiting? then r.(job := Some(r.job.value.(phase := Busy))) else r
    case Complete =>
      if r.job.Some? && r.job.value.phase.Busy?
      then r.(job := Some(Ran(r.job.value, accepts)))
      else r
    case Deliver(io) => if r.job.Some? && r.job.value.phase.Finished? then Done(s, r, io) else r
  }

  function RaceRun(s: Setup, accepts: Passwords, moves: seq<Move>): Race {
    if moves == [] then Race(START, None, 0, 0, 0, false)
    else RaceStep(s, accepts, RaceRun(s, accepts, moves[..|moves| - 1]), moves[|moves| - 1])
  }

  // ---- What one step of a connection does to its job ----

  /** No cancellation, and the initial state is not entered again. */
  predicate Quiet(c: Conn, c': Conn) {
    Cancels(c'.log.calls) == Cancels(c.log.calls) && (c.state.Initial? || !c'.state.Initial?)
  }

  lemma DestroyQuiet(c: Conn)
    ensures Cancels(Destroy(c).log.calls) == Cancels(c.log.calls) + (if c.pending.cancel then 1 else 0)
    ensures Destroy(c).state == c.state && !Destroy(c).pending.cancel
  {
    hide Cancels;
    OneMore(c.log.calls, CancelledJob);
    var calls1 := LogIf(c.log.calls, c.pending.cancel, CancelledJob);
    OneMore(calls1, ServerGone);
    OneMore(LogIf(calls1, c.outgoing, ServerGone), ClientGone);
  }

  /** Ends with up to two more calls, and perhaps a reply. */
  lemma EndQuiet(c: Conn, a: Call, b: Call, reply: int)
    requires !c.pending.cancel && !a.CancelledJob? && !b.CancelledJob?
    ensures Quiet(c, Destroy(c)) && Quiet(c, Destroy(Log(c, a))) && Quiet(c, Destroy(Log(Log(c, a), b)))
    ensures Quiet(c, Destroy(Reject(Log(c, a), reply))) && Quiet(c, Destroy(Reject(Log(Log(c, a), b), reply)))
    ensures !Destroy(Log(Log(c, a), b)).pending.cancel && !Destroy(Reject(Log(Log(c, a), b), reply)).pending.cancel
    ensures !Destroy(Log(c, a)).pending.cancel && !Destroy(Reject(Log(c, a), reply)).pending.cancel
  {
    hide Cancels;
    hide Destroy;
    DestroyQuiet(c);
    DestroyQuiet(Log(c, a));
    DestroyQuiet(Log(Log(c, a), b));
    DestroyQuiet(Reject(Log(c, a), reply));
    DestroyQuiet(Reject(Log(Log(c, a), b), reply));
    OneMore(c.log.calls, a);
    OneMore(c.log.calls + [a], b);
  }

  lemma CheckQuiet(s: Setup, c: Conn, result: bool, io: Io)
    requires !c.state.Initial?
    ensures Quiet(c, OnCheckCredentials(s, c, result, io)) && !OnCheckCredentials(s, c, result, io).pending.cancel
  {
    hide Cancels;
    hide Destroy;
    hide Reject;
    hide ServerListPacket;
    var c1 := c.(pending := c.pending.(cancel := false));
    EndQuiet(c1, LoginRejected, Charged(5), io.reply);
    EndQuiet(c1, Charged(1), LoginAccepted, io.reply);
    OneMore(c.log.calls, Charged(1));
    OneMore(c.log.calls + [Charged(1)], LoginAccepted);
  }

  /** A job is asked for with the connection's own credentials. */
  ghost predicate Asks(c': Conn) {
    && c'.log.status == Alive && c'.state.CheckCredentials?
    && |c'.log.packets| == INITIAL_SIZE && c'.log.calls != []
    && c'.log.calls[|c'.log.calls| - 1] == AskedFor(Own(c'))
  }

  function Own(c: Conn): Credentials
    requires |c.log.packets| == INITIAL_SIZE
  {
    Credentials(Username(c.log.packets), Password(c.log.packets))
  }

  lemma CheckLoginQuiet(s: Setup, c: Conn, io: Io)
    requires |c.log.packets| == INITIAL_SIZE && c.state.Initial? && !c.pending.cancel && c.log.status == Alive
    ensures var c' := CheckLogin(s, c, io);
            Quiet(c, c') && (c'.pending.cancel ==> Asks(c'))
  {
    hide Cancels;
    hide Destroy;
    hide OnCheckCredentials;
    hide Reject;
    hide WellFormedLogin;
    hide ValidUsername;
    hide Username;
    hide Password;
    var asked := AskedFor(Own(c));
    var a := Log(c.(state := CheckCredentials), asked);
    CheckQuiet(s, a, true, io);
    OneMore(c.log.calls, asked);
    EndQuiet(a, Charged(2), Charged(0), io.reply);
    EndQuiet(c, LoginMalformed, Charged(8), io.reply);
    EndQuiet(c, LoginMalformed, Charged(10), io.reply);
  }

  lemma LoginPacketsQuiet(s: Setup, c: Conn, io: Io)
    requires |c.log.packets| < INITIAL_SIZE && c.state.Initial? && !c.pending.cancel && c.log.status == Alive
    ensures var c' := ReceiveLoginPackets(s, c, io);
            Quiet(c, c') && (c'.pending.cancel ==> Asks(c'))
  {
    hide Cancels;
    hide Destroy;
    hide CheckLogin;
    hide Asks;
    DestroyQuiet(c);
    var input := Clip(Input(io.inputs, 0), INITIAL_SIZE - |c.log.packets|);
    if input.Data? && |c.log.packets| + |input.bytes| == INITIAL_SIZE {
      var c' := c.(up := c.up.(src := c.up.src + input.bytes), log := c.log.(packets := c.log.packets + input.bytes));
      CheckLoginQuiet(s, c'.(up := c'.up.(read := false), pending := c'.pending.(timeout := false)), io);
    }
  }

  /** Nothing pending, nothing cancelled, nothing new pending. */
  predicate Calm(c: Conn, c': Conn) { Quiet(c, c') && !c'.pending.cancel }

  lemma SettleCalm(c: Conn, c': Conn, v: Verdict)
    requires Calm(c, c')
    ensures Calm(c, Settle(c', v))
  {
    hide Cancels;
    DestroyQuiet(c');
  }

  lemma RelaysCalm(c: Conn, ready: Ready, io: Io)
    requires !c.pending.cancel
    ensures Calm(c, RelayIncoming(c, ready, io)) && Calm(c, RelayOutgoing(c, ready, io))
  {
    hide Cancels;
    hide Relay;
    hide Settle;
    var (down, up, v, n) := Relay(c.down, c.up, ready, io);
    OneMore(c.log.calls, ClientBytes(n));
    SettleCalm(c, c.(down := down, up := up, log := c.log.(calls := LogIf(c.log.calls, n > 0, ClientBytes(n)))), v);
    var (up', down', v', n') := Relay(c.up, c.down, ready, io);
    OneMore(c.log.calls, ServerBytes(n'));
    var calls' := LogIf(c.log.calls, n' > 0, ServerBytes(n'));
    SettleCalm(c, c.(down := down', up := up', log := c.log.(calls := calls')), v');
  }

  lemma PacketsCalm(s: Setup, c: Conn, io: Io)
    requires !c.pending.cancel && !c.state.Initial?
    ensures Calm(c, ReceivePlayServer(s, c, io)) && Calm(c, ReceiveServerList(c, io))
  {
    hide Cancels;
    hide Destroy;
    hide TakeServerList;
    hide Choice;
    DestroyQuiet(c);
    var input := Clip(Input(io.inputs, 0), PLAY_SERVER_SIZE);
    if input.Data? {
      DestroyQuiet(c.(up := c.up.(src := c.up.src + input.bytes)));
    }
    DestroyQuiet(c.(down := c.down.(src := c.down.src + TakeServerList(io.inputs).0)));
  }

  lemma ConnectCalm(s: Setup, c: Conn, sent: int)
    requires !c.pending.cancel && !c.state.Initial? && |c.log.packets| == INITIAL_SIZE
    ensures Calm(c, OnSocketConnectSuccess(s, c, sent)) && Calm(c, OnSocketConnectError(c))
  {
    hide Cancels;
    hide Destroy;
    hide Hello;
    var c1 := c.(pending := c.pending.(connect := false));
    EndQuiet(c1, ServerFailed, Charged(0), 0);
    OneMore(c.log.calls, ServerConnected);
    DestroyQuiet(c1);
    DestroyQuiet(Log(c1, ServerFailed));
  }

  lemma ReadyQuiet(s: Setup, c: Conn, ready: Ready, io: Io)
    requires c.log.status == Alive && !c.pending.cancel && (c.state.Initial? ==> |c.log.packets| < INITIAL_SIZE)
    ensures var c' := OnIncomingReady(s, c, ready, io);
            Quiet(c, c') && (c'.pending.cancel ==> c.state.Initial? && Asks(c'))
    ensures !c.state.Initial? ==> Calm(c, OnOutgoingReady(c, ready, io))
  {
    hide Cancels;
    hide Destroy;
    hide ReceiveLoginPackets;
    hide ReceivePlayServer;
    hide ReceiveServerList;
    hide RelayIncoming;
    hide RelayOutgoing;
    hide Asks;
    DestroyQuiet(c);
    EndQuiet(c, Charged(4), Charged(0), 0);
    EndQuiet(c, Charged(5), Charged(0), 0);
    RelaysCalm(c, ready, io);
    if c.state.Initial? {
      LoginPacketsQuiet(s, c, io);
    } else {
      PacketsCalm(s, c, io);
    }
  }

  /** Without a pending job: nothing is cancelled, and if a job is asked for,
      this is the step that leaves the initial state. */
  lemma StepQuiet(s: Setup, c: Conn, e: Event)
    requires c in Consistent(s) && !c.pending.cancel
    ensures var c' := Step(s, c, e);
            Quiet(c, c') && (c'.pending.cancel ==> c.state.Initial? && Asks(c'))
  {
    hide Consistent;
    hide Cancels;
    hide Destroy;
    hide OnIncomingReady;
    hide OnOutgoingReady;
    hide OnCheckCredentials;
    hide OnSocketConnectSuccess;
    hide OnSocketConnectError;
    hide Asks;
    if Dispatched(c, e) {
      PendingIn(s, c);
      match e
      case Incoming(r, io) => ReadyQuiet(s, c, Mask(r, c.up.read, c.down.write), io);
      case Outgoing(r, io) => ReadyQuiet(s, c, Mask(r, c.down.read, c.up.write), io);
      case Timeout => EndQuiet(c.(pending := c.pending.(timeout := false)), Charged(7), Charged(0), 0);
      case Checked(result, io) =>
      case Connected(sent) => ConnectCalm(s, c, sent);
      case ConnectFailed => ConnectCalm(s, c, 0);
      case Teardown => DestroyQuiet(c);
    }
  }

  /** With a pending job: the job's own callback cancels nothing; any other step
      changes nothing or is the end, with one cancellation. */
  lemma StepWaiting(s: Setup, c: Conn, e: Event)
    requires c in Consistent(s) && c.pending.cancel && c.log.status == Alive
    ensures c.state.CheckCredentials?
    ensures e.Checked? ==> Dispatched(c, e) && Quiet(c, Step(s, c, e)) && !Step(s, c, e).pending.cancel
    ensures !e.Checked? ==> Step(s, c, e) == c || Step(s, c, e) == Destroy(c)
  {
    hide Consistent;
    hide Cancels;
    hide OnCheckCredentials;
    PendingIn(s, c);
    if e.Checked? {
      CheckQuiet(s, c, e.result, e.io);
    }
  }

  // ---- All interleavings ----

  /** Every job ever created still exists or was destroyed, once; and it is still
      awaited, or was called back, or was cancelled: one of the three, once. */
  ghost predicate Owned(accepts: Passwords, r: Race) {
    var c := r.conn;
    && !r.misused && r.created <= 1 && (c.state.Initial? ==> r.created == 0)
    && r.created == r.deleted + (if r.job.Some? then 1 else 0)
    && r.created == r.callbacks + Cancels(c.log.calls) + (if c.pending.cancel then 1 else 0)
    && (c.pending.cancel <==> r.job.Some? && !r.job.value.canceled)
    && (c.pending.cancel ==>
         && c.log.status == Alive && c.state.CheckCredentials? && |c.log.packets| == INITIAL_SIZE
         && r.job.value.credentials == Own(c))
    && (r.job.Some? ==>
         && r.callbacks == 0
         && (r.job.value.canceled ==> !r.job.value.phase.Waiting?)
         && (r.job.value.phase.Finished? ==> r.job.value.result == accepts(r.job.value.credentials)))
  }

  lemma LoopOwned(s: Setup, accepts: Passwords, r: Race, e: Event)
    requires r.conn in Consistent(s) && Owned(accepts, r) && !e.Checked?
    ensures Owned(accepts, RaceStep(s, accepts, r, Loop(e)))
  {
    hide Consistent;
    hide Cancels;
    hide Step;
    hide Destroy;
    if r.conn.pending.cancel {
      StepWaiting(s, r.conn, e);
      DestroyQuiet(r.conn);
    } else {
      StepQuiet(s, r.conn, e);
    }
  }

  lemma DoneOwned(s: Setup, accepts: Passwords, r: Race, io: Io)
    requires r.conn in Consistent(s) && Owned(accepts, r) && r.job.Some?
    ensures Owned(accepts, Done(s, r, io))
  {
    hide Consistent;
    hide Cancels;
    hide Step;
    if r.conn.pending.cancel {
      StepWaiting(s, r.conn, Checked(r.job.value.result, io));
    }
  }

  lemma {:induction false} RaceOwned(s: Setup, accepts: Passwords, moves: seq<Move>)
    ensures var r := RaceRun(s, accepts, moves);
            r.conn in Consistent(s) && Owned(accepts, r)
  {
    hide Consistent;
    hide Step;
    hide Follow;
    hide Done;
    if moves == [] {
      StartInv(s);
      assert [ClientAccepted][..0] == [];
    } else {
      var before, m := moves[..|moves| - 1], moves[|moves| - 1];
      RaceOwned(s, accepts, before);
      var r := RaceRun(s, accepts, before);
      match m
      case Loop(e) =>
        if !e.Checked? {
          StepInv(s, r.conn, e);
          FollowsConn(r, Step(s, r.conn, e));
          LoopOwned(s, accepts, r, e);
        }
      case Deliver(io) =>
        if r.job.Some? {
          DoneOwned(s, accepts, r, io);
          DoneConn(s, r, io);
          StepInv(s, r.conn, Checked(r.job.value.result, io));
        }
      case _ =>
    }
  }

  lemma FollowsConn(r: Race, c': Conn)
    ensures Follow(r, c').conn == c'
  {}

  lemma DoneConn(s: Setup, r: Race, io: Io)
    requires r.job.Some?
    ensures Done(s, r, io).conn in {r.conn, Step(s, r.conn, Checked(r.job.value.result, io))}
  {}

  /** However the loop and the worker interleave: a job is destroyed at most once
      and called back at most once, never after (or before) it was cancelled, and
      exactly once if it is gone without having been cancelled; Cancel() is never
      called on a job that is gone or being delivered, and the callback always
      finds its connection waiting for it. */
  lemma JobRace(s: Setup, accepts: Passwords, moves: seq<Move>)
    ensures var r := RaceRun(s, accepts, moves);
            && !r.misused && r.deleted <= r.created <= 1
            && (r.job.None? <==> r.deleted == r.created)
            && r.callbacks + Cancels(r.conn.log.calls) <= 1
            && (r.job.None? && r.created == 1 ==> r.callbacks + Cancels(r.conn.log.calls) == 1)
            && (r.job.Some? ==> r.callbacks == 0)
  {
    hide Consistent;
    hide RaceRun;
    hide Cancels;
    RaceOwned(s, accepts, moves);
  }

  /** No job is leaked: whatever its state, the worker and one delivery end it. */
  lemma JobEnds(s: Setup, accepts: Passwords, moves: seq<Move>, io: Io)
    ensures var r := RaceRun(s, accepts, moves + [Take, Complete, Deliver(io)]);
            r.job.None? && r.deleted == r.created
  {
    hide Owned;
    hide Done;
    var m1, m2, m3 := moves + [Take], moves + [Take, Complete], moves + [Take, Complete, Deliver(io)];
    assert m1[..|m1| - 1] == moves && m2[..|m2| - 1] == m1 && m3[..|m3| - 1] == m2;
    JobRace(s, accepts, m3);
    var r := RaceRun(s, accepts, m2);
    assert RaceRun(s, accepts, m1) == RaceStep(s, accepts, RaceRun(s, accepts, moves), Take);
    assert r == RaceStep(s, accepts, RaceRun(s, accepts, m1), Complete);
    assert RaceRun(s, accepts, m3) == RaceStep(s, accepts, r, Deliver(io));
    if r.job.Some? {
      DoneGone(s, r, io);
    }
  }

  lemma DoneGone(s: Setup, r: Race, io: Io)
    requires r.job.Some?
    ensures Done(s, r, io).job.None?
  {}

  // ---- Who gets through ----

  /** No lookup found the database absent. */
  predicate WithDatabase(moves: seq<Move>) {
    forall m <- moves :: m.Loop? && m.event.Incoming? ==> !m.event.io.lookup.NoDatabase?
  }

  predicate Verified(accepts: Passwords, c: Conn) {
    LoggedIn(c) ==> |c.log.packets| == INITIAL_SIZE && accepts(Own(c))
  }

  /** Without a result from the job or a missing database, nobody is logged in. */
  predicate NotLetIn(c: Conn, c': Conn) {
    && (LoggedIn(c') ==> LoggedIn(c))
    && (LoggedIn(c) && |c.log.packets| == INITIAL_SIZE ==> c'.log.packets == c.log.packets)
  }

  lemma CheckLoginNotLetIn(s: Setup, c: Conn, io: Io)
    requires |c.log.packets| == INITIAL_SIZE && !LoggedIn(c) && !io.lookup.NoDatabase?
    ensures !LoggedIn(CheckLogin(s, c, io))
  {
    hide WellFormedLogin;
    hide ValidUsername;
    hide Username;
    hide Password;
  }

  lemma ReadyNotLetIn(s: Setup, c: Conn, ready: Ready, io: Io)
    requires (c.state.Initial? ==> |c.log.packets| < INITIAL_SIZE) && !io.lookup.NoDatabase?
    ensures NotLetIn(c, OnIncomingReady(s, c, ready, io))
  {
    hide CheckLogin;
    hide Choice;
    hide Relay;
    if c.state.Initial? {
      var input := Clip(Input(io.inputs, 0), INITIAL_SIZE - |c.log.packets|);
      if input.Data? && |c.log.packets| + |input.bytes| == INITIAL_SIZE {
        var c' := c.(up := c.up.(src := c.up.src + input.bytes), log := c.log.(packets := c.log.packets + input.bytes));
        CheckLoginNotLetIn(s, c'.(up := c'.up.(read := false), pending := c'.pending.(timeout := false)), io);
      }
    }
  }

  lemma StepNotLetIn(s: Setup, c: Conn, e: Event)
    requires c in Consistent(s) && !e.Checked?
    requires e.Incoming? ==> !e.io.lookup.NoDatabase?
    ensures NotLetIn(c, Step(s, c, e))
  {
    hide Consistent;
    hide OnIncomingReady;
    hide Hello;
    hide TakeServerList;
    hide Relay;
    if Dispatched(c, e) {
      PendingIn(s, c);
      if e.Incoming? {
        ReadyNotLetIn(s, c, Mask(e.ready, c.up.read, c.down.write), e.io);
      }
    }
  }

  lemma CheckLetsIn(s: Setup, c: Conn, result: bool, io: Io)
    requires c in Consistent(s) && c.log.status == Alive && c.state.CheckCredentials?
    ensures var c' := Step(s, c, Checked(result, io));
            (LoggedIn(c') ==> result) && c'.log.packets == c.log.packets
  {
    hide Consistent;
    hide ServerListPacket;
    PendingIn(s, c);
  }

  /** With a database, a client gets to the server list or a game server only if
      the worker accepted the user name and password of its own first 83 bytes. */
  lemma {:induction false} OnlyVerified(s: Setup, accepts: Passwords, moves: seq<Move>)
    requires WithDatabase(moves)
    ensures Verified(accepts, RaceRun(s, accepts, moves).conn)
  {
    hide Consistent;
    hide Step;
    hide Username;
    hide Password;
    if moves != [] {
      var before, m := moves[..|moves| - 1], moves[|moves| - 1];
      OnlyVerified(s, accepts, before);
      RaceOwned(s, accepts, before);
      var r := RaceRun(s, accepts, before);
      match m
      case Loop(e) =>
        if !e.Checked? {
          StepNotLetIn(s, r.conn, e);
          FollowsConn(r, Step(s, r.conn, e));
        }
      case Deliver(io) =>
        if r.job.Some? && r.conn.pending.cancel {
          CheckLetsIn(s, r.conn, r.job.value.result, io);
        }
      case _ =>
    }
  }

  /** In particular, no address is ever chosen for any other client. */
  lemma ConnectsOnlyVerified(s: Setup, accepts: Passwords, moves: seq<Move>)
    requires WithDatabase(moves)
    ensures var c := RaceRun(s, accepts, moves).conn;
            c.outgoingAddress.Some? ==>
              && 83 <= |c.up.src| && IsLogin(c.up.src[..83])
              && accepts(Credentials(CString(c.up.src[22..52]), CString(c.up.src[52..82])))
  {
    hide Consistent;
    hide RaceRun;
    hide WellFormedLogin;
    hide ValidUsername;
    hide IsLogin;
    hide CString;
    RaceOwned(s, accepts, moves);
    OnlyVerified(s, accepts, moves);
    var c := RaceRun(s, accepts, moves).conn;
    if c.outgoingAddress.Some? {
      AddressIn(s, c);
      LoginSays(c.log.packets);
      assert c.log.packets[22..52] == c.up.src[22..52] && c.log.packets[52..82] == c.up.src[52..82];
    }
  }

  lemma AddressIn(s: Setup, c: Conn)
    requires c in Consistent(s) && c.outgoingAddress.Some?
    ensures LoggedIn(c) && |c.log.packets| == INITIAL_SIZE <= |c.up.src| && c.up.src[..INITIAL_SIZE] == c.log.packets
    ensures WellFormedLogin(c.log.packets) && ValidUsername(Username(c.log.packets))
  {}

  // ---- Why the callback forgets its cancel pointer first ----

  /** Done, were the callback not to clear the pointer (src/Connection.cxx:238). */
  function DoneKeeping(s: Setup, r: Race, io: Io): Race
    requires r.job.Some?
  {
    var c' := Decided(s, r.conn, r.job.value.result, io);
    r.(conn := c', job := None, deleted := r.deleted + 1, callbacks := r.callbacks + 1,
       misused := r.misused || Cancels(r.conn.log.calls) < Cancels(c'.log.calls))
  }

  /** Whatever happened before: a job would then be cancelled by its own callback
      exactly if the login is refused, or the client cannot be answered. */
  lemma ForgettingMatters(s: Setup, accepts: Passwords, moves: seq<Move>, io: Io)
    requires var r := RaceRun(s, accepts, moves); r.job.Some? && !r.job.value.canceled
    ensures var r := RaceRun(s, accepts, moves);
            DoneKeeping(s, r, io).misused <==> !r.job.value.result || (s.ShowsServerList() && io.reply < 0)
  {
    hide RaceRun;
    hide Consistent;
    hide Cancels;
    hide Decided;
    RaceOwned(s, accepts, moves);
    DecidedCancels(s, RaceRun(s, accepts, moves).conn, RaceRun(s, accepts, moves).job.value.result, io);
  }

  lemma DecidedCancels(s: Setup, c: Conn, result: bool, io: Io)
    requires c.pending.cancel
    ensures Cancels(Decided(s, c, result, io).log.calls) ==
            Cancels(c.log.calls) + if !result || (s.ShowsServerList() && io.reply < 0) then 1 else 0
  {
    hide Cancels;
    hide Destroy;
    hide Reject;
    hide ServerListPacket;
    if result {
      OneMore(c.log.calls, Charged(1));
      OneMore(c.log.calls + [Charged(1)], LoginAccepted);
      DestroyQuiet(Log(Charge(c, 1), LoginAccepted));
    } else {
      OneMore(c.log.calls, LoginRejected);
      OneMore(c.log.calls + [LoginRejected], Charged(5));
      RejectQuiet(Charge(Log(c, LoginRejected), 5), io.reply);
      DestroyQuiet(Reject(Charge(Log(c, LoginRejected), 5), io.reply));
    }
  }

  lemma RejectQuiet(c: Conn, reply: int)
    ensures Reject(c, reply).log == c.log && Reject(c, reply).pending == c.pending
  {}
}
