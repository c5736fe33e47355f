// A listener and a knock listener over the same accounting (src/Instance.hxx), in
// any order of what may happen to them: what that makes of every client's past.
module Service {
  import opened Packets
  import Limiter
  import ProxySpec
  import CredentialJobs
  import UserDatabase
  import Wire
  import opened ClientAccounting
  import opened Listening
  import opened Knocking

  /** Delayed connections, connections and requests are chosen by the environment,
      if there are any; so is the order of everything. */
  datatype Happening =
    | Accept(address: Key)
    | DelayEnds
    | DelayedHangup
    | ConnectionEnds
    | ConnectionCharged(tokens: nat)
    | Datagram(address: Key, payload: Bytes, found: UserDatabase.Found)
    | WorkerRuns
    | JobDone
    | CleanupFires
    | TimePasses(time: Limiter.Time)

  ghost predicate Running(l: Listener, k: KnockListener)
    reads l, l.accounts, l.accounts.clients.Values, l.accounts.registered, l.connections, k, k.Jobs()
  {
    l.accounts == k.accounts && l.Valid() && k.Pending()
  }

  /** All objects there are. */
  ghost function Everything(l: Listener, k: KnockListener): set<object>
    reads l, l.accounts, k
  {
    l.Footprint() + {k, k.database} + k.Jobs()
  }

  predicate IsKnock(e: Limiter.Event) { e.Do? && e.action.Knock? }

  /** Everyone's past goes on, without a new knock. */
  ghost predicate NoNewKnock(h: Histories, h': Histories) {
    forall key: Key ::
      && Past(h, key) <= Past(h', key)
      && forall i | |Past(h, key)| <= i < |Past(h', key)| :: !IsKnock(Past(h', key)[i])
  }

  lemma NoneYet(h: Histories)
    ensures NoNewKnock(h, h)
  {}

  lemma Noted(h: Histories, key: Key, e: Limiter.Event)
    requires !IsKnock(e)
    ensures NoNewKnock(h, Note(h, key, e))
  {}

  lemma NotedTwice(h: Histories, key: Key, e: Limiter.Event, f: Limiter.Event)
    requires !IsKnock(e) && !IsKnock(f)
    ensures NoNewKnock(h, Note(Note(h, key, e), key, f))
  {}

  predicate NoKnockIn(events: seq<Limiter.Event>) { forall i | 0 <= i < |events| :: !IsKnock(events[i]) }

  /** Only one client's past goes on. */
  ghost predicate OnlyOne(h: Histories, h': Histories, key: Key, more: seq<Limiter.Event>) {
    && Past(h', key) == Past(h, key) + more
    && forall k: Key | k != key :: Past(h', k) == Past(h, k)
  }

  lemma OneWithout(h: Histories, h': Histories, key: Key, more: seq<Limiter.Event>)
    requires OnlyOne(h, h', key, more) && NoKnockIn(more)
    ensures NoNewKnock(h, h')
  {}

  lemma AcceptedHistory(h: Histories, h': Histories, key: Key, tarpit: bool, now: Limiter.Time, placed: bool)
    requires key != 0 ==>
               var past := OnCharge(Past(h, key), tarpit, now);
               Past(h', key) == if placed then past + [Limiter.Connect(now)] else past
    requires forall k: Key | k != key || k == 0 :: Past(h', k) == Past(h, k)
    ensures NoNewKnock(h, h')
  {}

  // ---- One happening ----

  method Accepts(l: Listener, k: KnockListener, address: Key)
    requires Running(l, k)
    modifies Everything(l, k)
    ensures Running(l, k) && fresh(Everything(l, k) - old(Everything(l, k)))
    ensures NoNewKnock(old(l.accounts.history), l.accounts.history) && k.requests == old(k.requests)
    ensures k.database.View() == old(k.database.View())
  {
    hide ClientAccountingMap.Valid;
    hide ClientAccountingMap.Capped;
    hide Listener.Listed;
    hide Listener.Verdict;
    hide Listener.Justified;
    hide NoNewKnock;
    hide OnCharge;
    ghost var h := l.accounts.history;
    var verdict := l.OnAccept(address);
    AcceptedHistory(h, l.accounts.history, address, l.accounts.tarpit, l.accounts.now,
                    verdict.Delayed? || verdict.Admitted?);
  }

  method DelayEnds(l: Listener, k: KnockListener)
    requires Running(l, k)
    modifies Everything(l, k)
    ensures Running(l, k) && fresh(Everything(l, k) - old(Everything(l, k)))
    ensures NoNewKnock(old(l.accounts.history), l.accounts.history) && k.requests == old(k.requests)
    ensures k.database.View() == old(k.database.View())
  {
    hide ClientAccountingMap.Valid;
    hide ClientAccountingMap.Capped;
    hide Listener.Listed;
    hide NoNewKnock;
    NoneYet(l.accounts.history);
    if l.delayedConnections != {} {
      var d :| d in l.delayedConnections;
      l.Within(d);
      ghost var now := l.accounts.now;
      NotedTwice(l.accounts.history, d.accounting.perClient.address, Limiter.Connect(now), Limiter.Disconnect(now));
      var _ := l.OnTimer(d);
    }
  }

  method DelayedHangup(l: Listener, k: KnockListener)
    requires Running(l, k)
    modifies Everything(l, k)
    ensures Running(l, k) && fresh(Everything(l, k) - old(Everything(l, k)))
    ensures NoNewKnock(old(l.accounts.history), l.accounts.history) && k.requests == old(k.requests)
    ensures k.database.View() == old(k.database.View())
  {
    hide ClientAccountingMap.Valid;
    hide ClientAccountingMap.Capped;
    hide Listener.Listed;
    hide NoNewKnock;
    NoneYet(l.accounts.history);
    if l.delayedConnections != {} {
      var d :| d in l.delayedConnections;
      l.Within(d);
      ghost var h, key, now := l.accounts.history, d.accounting.perClient.address, l.accounts.now;
      Noted(h, key, Limiter.Disconnect(now));
      NotedTwice(h, key, Limiter.Do(Limiter.Charge(now, 4)), Limiter.Disconnect(now));
      l.OnSocketReady(d);
    }
  }

  method ConnectionEnds(l: Listener, k: KnockListener)
    requires Running(l, k)
    modifies Everything(l, k)
    ensures Running(l, k) && fresh(Everything(l, k) - old(Everything(l, k)))
    ensures NoNewKnock(old(l.accounts.history), l.accounts.history) && k.requests == old(k.requests)
    ensures k.database.View() == old(k.database.View())
  {
    hide ClientAccountingMap.Valid;
    hide ClientAccountingMap.Capped;
    hide Listener.Listed;
    hide NoNewKnock;
    NoneYet(l.accounts.history);
    if l.connections != {} {
      var c :| c in l.connections;
      l.WithinConnection(c);
      if c.perClient != null {
        Noted(l.accounts.history, c.perClient.address, Limiter.Disconnect(l.accounts.now));
      }
      l.OnClosed(c);
    }
  }

  method ConnectionCharged(l: Listener, k: KnockListener, tokens: nat)
    requires Running(l, k)
    modifies Everything(l, k)
    ensures Running(l, k) && fresh(Everything(l, k) - old(Everything(l, k)))
    ensures NoNewKnock(old(l.accounts.history), l.accounts.history) && k.requests == old(k.requests)
    ensures k.database.View() == old(k.database.View())
  {
    hide ClientAccountingMap.Valid;
    hide ClientAccountingMap.Capped;
    hide Listener.Listed;
    hide NoNewKnock;
    NoneYet(l.accounts.history);
    if l.connections != {} && tokens <= Limiter.MAX_CHARGE {
      var c :| c in l.connections;
      l.WithinConnection(c);
      if c.perClient != null {
        Noted(l.accounts.history, c.perClient.address, Limiter.Do(Limiter.Charge(l.accounts.now, tokens)));
      }
      l.OnCharged(c, tokens);
    }
  }

  lemma CleanedHistory(h: Histories, now: Limiter.Time)
    ensures NoNewKnock(h, AllCleaned(h, now))
  {}

  method CleanupFires(l: Listener, k: KnockListener)
    requires Running(l, k)
    modifies Everything(l, k)
    ensures Running(l, k) && fresh(Everything(l, k) - old(Everything(l, k)))
    ensures NoNewKnock(old(l.accounts.history), l.accounts.history) && k.requests == old(k.requests)
    ensures k.database.View() == old(k.database.View())
  {
    hide ClientAccountingMap.Valid;
    hide ClientAccountingMap.Capped;
    hide NoNewKnock;
    NoneYet(l.accounts.history);
    if l.accounts.cleanupTimer.Some? {
      CleanedHistory(l.accounts.history, l.accounts.now);
      l.accounts.OnCleanupTimer();
    }
  }

  method TimePasses(l: Listener, k: KnockListener, time: Limiter.Time)
    requires Running(l, k)
    modifies Everything(l, k)
    ensures Running(l, k) && fresh(Everything(l, k) - old(Everything(l, k)))
    ensures NoNewKnock(old(l.accounts.history), l.accounts.history) && k.requests == old(k.requests)
    ensures k.database.View() == old(k.database.View())
  {
    hide ClientAccountingMap.Valid;
    hide ClientAccountingMap.Capped;
    hide NoNewKnock;
    NoneYet(l.accounts.history);
    var timer := l.accounts.cleanupTimer;
    if l.accounts.now <= time && (timer.Some? ==> time <= timer.value) {
      l.accounts.Tick(time);
    }
  }

  method WorkerRuns(l: Listener, k: KnockListener)
    requires Running(l, k)
    modifies Everything(l, k)
    ensures Running(l, k) && fresh(Everything(l, k) - old(Everything(l, k)))
    ensures NoNewKnock(old(l.accounts.history), l.accounts.history) && k.requests == old(k.requests)
    ensures k.database.View() == old(k.database.View())
  {
    hide ClientAccountingMap.Valid;
    hide ClientAccountingMap.Capped;
    hide Listener.Listed;
    hide NoNewKnock;
    NoneYet(l.accounts.history);
    if k.requests != {} {
      var r :| r in k.requests;
      if r.job.phase.Waiting? {
        k.Work(r);
      }
    }
  }

  lemma Treated(address: Key, payload: Bytes, answer: UserDatabase.Answer)
    ensures Treatment(address, payload, answer).Admitted? ==> answer.LetIn?
  {}

  lemma FineIsNoKnock(tarpit: bool, now: Limiter.Time, tokens: nat)
    ensures NoKnockIn(Fine(tarpit, now, tokens))
  {}

  lemma TreatedHistory(h: Histories, h': Histories, key: Key, outcome: Outcome, tarpit: bool, now: Limiter.Time)
    requires forall k: Key | k != key :: Past(h', k) == Past(h, k)
    requires Past(h', key) == Past(h, key) +
               match outcome
               case Fined(tokens) => Fine(tarpit, now, tokens)
               case Admitted => Knocked(tarpit, now, true)
               case _ => []
    ensures !outcome.Admitted? ==> NoNewKnock(h, h')
  {
    if outcome.Fined? {
      OneWithout(h, h', key, Fine(tarpit, now, outcome.tokens));
    } else if !outcome.Admitted? {
      OneWithout(h, h', key, []);
    }
  }

  method Receives(l: Listener, k: KnockListener, address: Key, payload: Bytes, found: UserDatabase.Found)
    returns (outcome: Outcome)
    requires Running(l, k)
    modifies Everything(l, k)
    ensures Running(l, k) && fresh(Everything(l, k) - old(Everything(l, k)))
    ensures !outcome.Admitted? ==> NoNewKnock(old(l.accounts.history), l.accounts.history)
    ensures var (base, answer) := UserDatabase.Looked(k.database.settings, old(k.database.View()), found);
            && (k.database.View() == old(k.database.View()) || k.database.View() == base)
            && (outcome.Admitted? ==> answer.LetIn?)
    ensures forall r <- k.requests :: r in old(k.requests)
              || (r.address == address && WellFormedKnock(payload) && r.job.credentials == KnockCredentials(payload))
  {
    hide ClientAccountingMap.Valid;
    hide ClientAccountingMap.Capped;
    hide Listener.Listed;
    hide NoNewKnock;
    hide Treatment;
    hide Judged;
    hide Fine;
    hide Knocked;
    hide CString;
    hide KnockCredentials;
    hide WellFormedKnock;
    hide UserDatabase.Looked;
    ghost var h := l.accounts.history;
    Treated(address, payload, UserDatabase.Looked(k.database.settings, k.database.View(), found).1);
    var request;
    outcome, request := k.OnUdpDatagram(address, payload, found);
    TreatedHistory(h, l.accounts.history, address, outcome, l.accounts.tarpit, l.accounts.now);
  }

  /** A finished job; `answered` is its request. */
  method JobDone(l: Listener, k: KnockListener) returns (answered: Request?)
    requires Running(l, k)
    modifies Everything(l, k)
    ensures Running(l, k) && fresh(Everything(l, k) - old(Everything(l, k)))
    ensures k.requests <= old(k.requests) && k.database.View() == old(k.database.View())
    ensures answered != null ==> answered in old(k.requests)
    ensures if answered != null && k.passwords(answered.job.credentials) then
              OnlyOne(old(l.accounts.history), l.accounts.history, answered.address,
                      [Limiter.Do(Limiter.Knock(l.accounts.now))])
            else NoNewKnock(old(l.accounts.history), l.accounts.history)
  {
    hide ClientAccountingMap.Valid;
    hide ClientAccountingMap.Capped;
    hide Listener.Listed;
    hide NoNewKnock;
    NoneYet(l.accounts.history);
    answered := null;
    if k.requests != {} {
      var r :| r in k.requests;
      if r.job.phase.Finished? {
        answered := r;
        ghost var h := l.accounts.history;
        k.OnDone(r);
        if !k.passwords(r.job.credentials) {
          FineIsNoKnock(l.accounts.tarpit, l.accounts.now, 5);
          OneWithout(h, l.accounts.history, r.address, Fine(l.accounts.tarpit, l.accounts.now, 5));
        }
      }
    }
  }

  // ---- Knocking works ----

  /** A new client that has knocked: it gets in, unless a knock is required and its
      password was wrong. */
  method KnocksAndConnects(l: Listener, k: KnockListener, address: Key, payload: Bytes, found: UserDatabase.Found)
    returns (verdict: Limiter.Admission)
    requires Running(l, k) && address != 0 && Past(l.accounts.history, address) == []
    requires |payload| == 62 && payload[0] == 0x80 && Wire.HasName(payload[1..31])
    requires UserDatabase.Looked(k.database.settings, k.database.View(), found).1.Ask?
    modifies Everything(l, k)
    ensures var accepted := k.passwords(ProxySpec.Credentials(CString(payload[1..31]), CString(payload[31..61])));
            verdict == if accepted || !l.requireKnock then Limiter.Admitted else Limiter.MissingKnock
  {
    hide ClientAccountingMap.Valid;
    hide ClientAccountingMap.Capped;
    hide Listener.Listed;
    hide Listener.Verdict;
    hide Listener.Justified;
    hide CString;
    hide Wire.HasName;
    hide UserDatabase.Looked;
    hide OnCharge;
    NowIsTime(l);
    ghost var accepted := k.passwords(ProxySpec.Credentials(CString(payload[1..31]), CString(payload[31..61])));
    k.Knock(address, payload, found);
    ghost var now := l.accounts.now;
    ghost var past := if accepted then [Limiter.Do(Limiter.Knock(now))]
                      else if l.accounts.tarpit then [Limiter.Do(Limiter.Charge(now, 5))] else [];
    assert [] + past == past == Past(l.accounts.history, address);
    FirstVerdict(l, now, past);
    verdict := l.OnAccept(address);
  }

  lemma NowIsTime(l: Listener)
    requires l.accounts.Valid()
    ensures 0 <= l.accounts.now
  {}

  /** What a client finds whose past is one knock, or one charge for a wrong password. */
  lemma FirstVerdict(l: Listener, now: Limiter.Time, past: seq<Limiter.Event>)
    requires 0 <= now
    requires past in [[], [Limiter.Do(Limiter.Knock(now))], [Limiter.Do(Limiter.Charge(now, 5))]]
    ensures l.Verdict(OnCharge(past, l.accounts.tarpit, now)) ==
            if !l.requireKnock || past == [Limiter.Do(Limiter.Knock(now))] then Limiter.Admitted
            else Limiter.MissingKnock
  {
    var accept := Limiter.Do(Limiter.Accept(now));
    if past != [] {
      assert past[..0] == [];
      assert Limiter.Lived(true, past) == Limiter.Lives(true, Limiter.UNKNOWN, past[0]);
    }
    assert (past + [accept])[..|past|] == past;
    assert Limiter.Lived(true, past + [accept]) == Limiter.Lives(true, Limiter.Lived(true, past), accept);
  }

  // ---- Who may knock ----

  /** The client has sent these credentials. */
  predicate SentBy(done: seq<Happening>, key: Key, c: ProxySpec.Credentials) {
    exists i | 0 <= i < |done| :: Sends(done[i], key, c)
  }

  predicate Sends(h: Happening, key: Key, c: ProxySpec.Credentials) {
    h.Datagram? && h.address == key && WellFormedKnock(h.payload) && c == KnockCredentials(h.payload)
  }

  /** Every knock in the past of a client came with credentials of its own that the
      password check accepts. */
  ghost predicate Vouched(h: Histories, passwords: CredentialJobs.Passwords, done: seq<Happening>) {
    forall key: Key, i | 0 <= i < |Past(h, key)| && IsKnock(Past(h, key)[i]) :: KnockedRightly(passwords, done, key)
  }

  ghost predicate KnockedRightly(passwords: CredentialJobs.Passwords, done: seq<Happening>, key: Key) {
    exists c :: SentBy(done, key, c) && passwords(c)
  }

  ghost predicate Asked(requests: set<Request>, done: seq<Happening>) {
    forall r <- requests :: SentBy(done, r.address, r.job.credentials)
  }

  lemma SentOn(done: seq<Happening>, h: Happening, key: Key, c: ProxySpec.Credentials)
    ensures SentBy(done, key, c) || Sends(h, key, c) ==> SentBy(done + [h], key, c)
  {
    if i :| 0 <= i < |done| && Sends(done[i], key, c) {
      assert Sends((done + [h])[i], key, c);
    }
    assert (done + [h])[|done|] == h;
  }

  lemma RightlyOn(passwords: CredentialJobs.Passwords, done: seq<Happening>, h: Happening, key: Key)
    requires KnockedRightly(passwords, done, key)
    ensures KnockedRightly(passwords, done + [h], key)
  {
    var c :| SentBy(done, key, c) && passwords(c);
    SentOn(done, h, key, c);
  }

  lemma VouchedOn(h: Histories, h': Histories, passwords: CredentialJobs.Passwords, done: seq<Happening>, e: Happening)
    requires Vouched(h, passwords, done) && NoNewKnock(h, h')
    ensures Vouched(h', passwords, done + [e])
  {
    hide KnockedRightly;
    forall key: Key, i | 0 <= i < |Past(h', key)| && IsKnock(Past(h', key)[i])
      ensures KnockedRightly(passwords, done + [e], key)
    {
      assert Past(h, key) <= Past(h', key) && i < |Past(h, key)|;
      assert Past(h, key)[i] == Past(h', key)[i];
      RightlyOn(passwords, done, e, key);
    }
  }

  lemma KnockVouched(h: Histories, h': Histories, passwords: CredentialJobs.Passwords,
                     done: seq<Happening>, e: Happening, key: Key, c: ProxySpec.Credentials, knock: Limiter.Event)
    requires Vouched(h, passwords, done) && OnlyOne(h, h', key, [knock]) && SentBy(done, key, c) && passwords(c)
    ensures Vouched(h', passwords, done + [e])
  {
    SentOn(done, e, key, c);
    forall k: Key, i | 0 <= i < |Past(h', k)| && IsKnock(Past(h', k)[i])
      ensures KnockedRightly(passwords, done + [e], k)
    {
      if k != key {
        assert Past(h', k) == Past(h, k);
        RightlyOn(passwords, done, e, k);
      }
    }
  }

  /** The file that a datagram's lookup finds is dated, or there is no reloading. */
  predicate Guarded(s: UserDatabase.Settings, h: Happening) {
    h.Datagram? ==> if s.autoReload then h.found.Regular? ==> h.found.mtime != 0 else s.path
  }

  lemma NotLetIn(s: UserDatabase.Settings, looks: seq<UserDatabase.Found>, found: UserDatabase.Found)
    requires if s.autoReload then forall f <- looks + [found] :: f.Regular? ==> f.mtime != 0 else s.path
    ensures !UserDatabase.Looked(s, UserDatabase.After(s, looks), found).1.LetIn?
    ensures UserDatabase.After(s, looks + [found]) == UserDatabase.Looked(s, UserDatabase.After(s, looks), found).0
  {
    var all := looks + [found];
    assert all[..|all| - 1] == looks && all[|all| - 1] == found && found in all;
    UserDatabase.FailsOpenIff(s, all);
  }

  // ---- All that may happen ----

  /** What every run keeps true: whoever has knocked was vouched for, as long as the
      database has been guarding. */
  ghost predicate Kept(l: Listener, k: KnockListener, done: seq<Happening>, looks: seq<UserDatabase.Found>)
    reads l, l.accounts, k, k.Jobs(), k.database
  {
    var s := k.database.settings;
    (forall h <- done :: Guarded(s, h)) ==>
      && Vouched(l.accounts.history, k.passwords, done)
      && Asked(k.requests, done)
      && k.database.View() == UserDatabase.After(s, looks)
      && forall f <- looks :: s.autoReload && f.Regular? ==> f.mtime != 0
  }

  lemma StillAsked(requests: set<Request>, fewer: set<Request>, done: seq<Happening>, e: Happening)
    requires Asked(requests, done) && fewer <= requests
    ensures Asked(fewer, done + [e])
  {
    forall r <- fewer ensures SentBy(done + [e], r.address, r.job.credentials) {
      SentOn(done, e, r.address, r.job.credentials);
    }
  }

  lemma KeptCalm(s: UserDatabase.Settings, passwords: CredentialJobs.Passwords, h: Histories, h': Histories,
                 requests: set<Request>, done: seq<Happening>, e: Happening)
    requires Vouched(h, passwords, done) && Asked(requests, done) && NoNewKnock(h, h')
    ensures Vouched(h', passwords, done + [e]) && Asked(requests, done + [e])
  {
    VouchedOn(h, h', passwords, done, e);
    StillAsked(requests, requests, done, e);
  }

  lemma GuardedOn(s: UserDatabase.Settings, done: seq<Happening>, e: Happening)
    ensures (forall h <- done + [e] :: Guarded(s, h)) <==> (forall h <- done :: Guarded(s, h)) && Guarded(s, e)
  {
    assert e in done + [e];
  }

  /** What brings no knock. */
  method HappensCalmly(l: Listener, k: KnockListener, h: Happening)
    requires Running(l, k) && !h.Datagram? && !h.JobDone?
    modifies Everything(l, k)
    ensures Running(l, k) && fresh(Everything(l, k) - old(Everything(l, k)))
    ensures NoNewKnock(old(l.accounts.history), l.accounts.history) && k.requests == old(k.requests)
    ensures k.database.View() == old(k.database.View())
  {
    hide Running;
    hide NoNewKnock;
    match h {
      case Accept(address) => Accepts(l, k, address);
      case DelayEnds => DelayEnds(l, k);
      case DelayedHangup => DelayedHangup(l, k);
      case ConnectionEnds => ConnectionEnds(l, k);
      case ConnectionCharged(tokens) => ConnectionCharged(l, k, tokens);
      case WorkerRuns => WorkerRuns(l, k);
      case CleanupFires => CleanupFires(l, k);
      case TimePasses(time) => TimePasses(l, k, time);
    }
  }

  method HappensKept(l: Listener, k: KnockListener, h: Happening, ghost done: seq<Happening>,
                     ghost looks: seq<UserDatabase.Found>)
    requires Running(l, k) && Kept(l, k, done, looks) && !h.Datagram? && !h.JobDone?
    modifies Everything(l, k)
    ensures Running(l, k) && fresh(Everything(l, k) - old(Everything(l, k)))
    ensures Kept(l, k, done + [h], looks)
  {
    hide Running;
    hide NoNewKnock;
    hide Vouched;
    hide Asked;
    hide Guarded;
    ghost var before, s := l.accounts.history, k.database.settings;
    HappensCalmly(l, k, h);
    GuardedOn(s, done, h);
    if forall e <- done + [h] :: Guarded(s, e) {
      KeptCalm(s, k.passwords, before, l.accounts.history, k.requests, done, h);
    }
  }

  method ReceivesKept(l: Listener, k: KnockListener, h: Happening, ghost done: seq<Happening>,
                      ghost looks: seq<UserDatabase.Found>)
    returns (stop: bool, ghost looks': seq<UserDatabase.Found>)
    requires Running(l, k) && Kept(l, k, done, looks) && h.Datagram?
    modifies Everything(l, k)
    ensures Running(l, k) && fresh(Everything(l, k) - old(Everything(l, k)))
    ensures Kept(l, k, done + [h], looks')
  {
    hide Running;
    hide NoNewKnock;
    hide Vouched;
    hide KnockCredentials;
    hide UserDatabase.Looked;
    hide UserDatabase.After;
    ghost var before, s, requests := l.accounts.history, k.database.settings, k.requests;
    ghost var base := k.database.View();
    var outcome := Receives(l, k, h.address, h.payload, h.found);
    stop := outcome.Terminated?;
    looks' := if k.database.View() == base then looks else looks + [h.found];
    GuardedOn(s, done, h);
    if forall e <- done + [h] :: Guarded(s, e) {
      NotLetIn(s, looks, h.found);
      VouchedOn(before, l.accounts.history, k.passwords, done, h);
      AskedOn(requests, k.requests, done, h);
    }
  }

  lemma AskedOn(requests: set<Request>, more: set<Request>, done: seq<Happening>, e: Happening)
    requires Asked(requests, done)
    requires forall r <- more :: r in requests || Sends(e, r.address, r.job.credentials)
    ensures Asked(more, done + [e])
  {
    forall r <- more ensures SentBy(done + [e], r.address, r.job.credentials) {
      SentOn(done, e, r.address, r.job.credentials);
    }
  }

  method AnswersKept(l: Listener, k: KnockListener, h: Happening, ghost done: seq<Happening>,
                     ghost looks: seq<UserDatabase.Found>)
    requires Running(l, k) && Kept(l, k, done, looks) && h.JobDone?
    modifies Everything(l, k)
    ensures Running(l, k) && fresh(Everything(l, k) - old(Everything(l, k)))
    ensures Kept(l, k, done + [h], looks)
  {
    hide Running;
    hide NoNewKnock;
    hide Vouched;
    ghost var before, s, requests := l.accounts.history, k.database.settings, k.requests;
    var r := JobDone(l, k);
    GuardedOn(s, done, h);
    if forall e <- done + [h] :: Guarded(s, e) {
      StillAsked(requests, k.requests, done, h);
      if r != null && k.passwords(r.job.credentials) {
        KnockVouched(before, l.accounts.history, k.passwords, done, h, r.address, r.job.credentials,
                     Limiter.Do(Limiter.Knock(l.accounts.now)));
      } else {
        VouchedOn(before, l.accounts.history, k.passwords, done, h);
      }
    }
  }

  /** One happening; an exception in a request's constructor stops the process. */
  method Happens(l: Listener, k: KnockListener, h: Happening, ghost done: seq<Happening>,
                 ghost looks: seq<UserDatabase.Found>)
    returns (stop: bool, ghost looks': seq<UserDatabase.Found>)
    requires Running(l, k) && Kept(l, k, done, looks)
    modifies Everything(l, k)
    ensures Running(l, k) && fresh(Everything(l, k) - old(Everything(l, k)))
    ensures Kept(l, k, done + [h], looks')
  {
    hide Running;
    hide Kept;
    stop, looks' := false, looks;
    if h.Datagram? {
      stop, looks' := ReceivesKept(l, k, h, done, looks);
    } else if h.JobDone? {
      AnswersKept(l, k, h, done, looks);
    } else {
      HappensKept(l, k, h, done, looks);
    }
  }

  lemma Begins(l: Listener, k: KnockListener, settings: UserDatabase.Settings)
    requires l.accounts.history == map[] && k.requests == {} && k.database.View() == UserDatabase.Opened(settings)
    requires k.database.settings == settings
    ensures Kept(l, k, [], [])
  {}

  /** Anything at all, in any order: clients connect, wait, hang up, are charged,
      knock; the worker, the timers and the database file do as they please.  The
      heap stays as it must be, no client ever has more connections than allowed or
      is let in undelayed more often than 10 + T times in T seconds, and with a
      database only those have knocked whose credentials the worker accepted. */
  method Serve(maxConnections: nat, requireKnock: bool, settings: UserDatabase.Settings,
               passwords: CredentialJobs.Passwords, happenings: seq<Happening>)
    returns (l: Listener, k: KnockListener, done: seq<Happening>)
    ensures Running(l, k) && done <= happenings
    ensures l.accounts.maxConnections == maxConnections && l.requireKnock == requireKnock
    ensures forall key: Key, s: Limiter.Time | s <= l.accounts.now ::
              Limiter.Passed(Past(l.accounts.history, key), s) * 1_000_000_000 <= 10_000_000_000 + (l.accounts.now - s)
    ensures (forall h <- done :: Guarded(settings, h)) ==> Vouched(l.accounts.history, passwords, done)
  {
    hide ClientAccountingMap.Valid;
    hide ClientAccountingMap.Capped;
    hide Running;
    hide Kept;
    hide Vouched;
    hide Guarded;
    l, k := Create(maxConnections, requireKnock, settings, passwords);
    Begins(l, k, settings);
    ghost var looks;
    done, looks := Goes(l, k, happenings);
    Concludes(l, k, done, looks);
  }

  /** All happenings in turn, until one stops the process. */
  method Goes(l: Listener, k: KnockListener, happenings: seq<Happening>)
    returns (done: seq<Happening>, ghost looks: seq<UserDatabase.Found>)
    requires Running(l, k) && Kept(l, k, [], [])
    modifies Everything(l, k)
    ensures Running(l, k) && Kept(l, k, done, looks) && done <= happenings
  {
    hide Running;
    hide Kept;
    done, looks := [], [];
    var i := 0;
    var stop := false;
    while i < |happenings| && !stop
      invariant i <= |happenings| && done == happenings[..i]
      invariant Running(l, k) && Kept(l, k, done, looks)
      invariant fresh(Everything(l, k) - old(Everything(l, k)))
    {
      stop, looks := Happens(l, k, happenings[i], done, looks);
      assert happenings[..i + 1] == done + [happenings[i]];
      done := done + [happenings[i]];
      i := i + 1;
    }
  }

  lemma Concludes(l: Listener, k: KnockListener, done: seq<Happening>, looks: seq<UserDatabase.Found>)
    requires Running(l, k) && Kept(l, k, done, looks)
    ensures forall key: Key, s: Limiter.Time | s <= l.accounts.now ::
              Limiter.Passed(Past(l.accounts.history, key), s) * 1_000_000_000 <= 10_000_000_000 + (l.accounts.now - s)
    ensures (forall h <- done :: Guarded(k.database.settings, h)) ==> Vouched(l.accounts.history, k.passwords, done)
  {
    hide ClientAccountingMap.Valid;
    hide ClientAccountingMap.Capped;
    hide Listener.Listed;
    hide Vouched;
    hide Guarded;
    Rates(l.accounts);
  }

  method Create(maxConnections: nat, requireKnock: bool, settings: UserDatabase.Settings,
                passwords: CredentialJobs.Passwords)
    returns (l: Listener, k: KnockListener)
    ensures Running(l, k) && fresh(Everything(l, k)) && l.accounts.history == map[] && k.requests == {}
    ensures k.database.settings == settings && k.database.View() == UserDatabase.Opened(settings)
    ensures k.passwords == passwords && l.requireKnock == requireKnock && l.accounts.maxConnections == maxConnections
  {
    hide ClientAccountingMap.Valid;
    var accounts := new ClientAccountingMap(maxConnections, true);
    var database := new UserDatabase.Database(settings);
    l := new Listener(accounts, requireKnock);
    k := new KnockListener(accounts, database, passwords);
  }

  lemma Rates(accounts: ClientAccountingMap)
    requires accounts.Valid()
    ensures forall key: Key, s: Limiter.Time | s <= accounts.now ::
              Limiter.Passed(Past(accounts.history, key), s) * 1_000_000_000 <= 10_000_000_000 + (accounts.now - s)
  {
    hide ClientAccountingMap.Valid;
    forall key: Key, s: Limiter.Time | s <= accounts.now
      ensures Limiter.Passed(Past(accounts.history, key), s) * 1_000_000_000 <= 10_000_000_000 + (accounts.now - s)
    {
      accounts.Told(key);
      Limiter.AcceptRate(Past(accounts.history, key), s, accounts.now);
    }
  }
}
