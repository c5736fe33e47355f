// The accounting objects (src/net/ClientAccounting.cxx, src/net/AccountedClientConnection.cxx):
// which connection belongs to which client, what each client's entry says about
// its past, and when entries are deleted.
module ClientAccounting {
  import Packets
  import opened Limiter

  /** What ToInteger makes of an address; 0 for addresses without accounting. */
  type Key = nat

  const CLEANUP_INTERVAL: Time := 60 * SECOND

  type Histories = map<Key, seq<Event>>

  function Past(h: Histories, k: Key): seq<Event> { if k in h then h[k] else [] }

  function Note(h: Histories, k: Key, e: Event): Histories { h[k := Past(h, k) + [e]] }

  /** The cleanup timer has fired for everyone. */
  function AllCleaned(h: Histories, now: Time): Histories { map k | k in h :: h[k] + [Cleanup(now)] }

  lemma PastOn(events: seq<Event>, e: Event, now: Time)
    ensures Lived(true, events + [e]) == Lives(true, Lived(true, events), e)
    ensures UpTo(events, now) && 0 <= At(e) == now && (e.Do? ==> Size(e.action) <= MAX_CHARGE) ==>
              UpTo(events + [e], now)
  {
    assert (events + [e])[..|events|] == events;
  }

  lemma NothingLived(now: Time)
    ensures Lived(true, []) == UNKNOWN && UpTo([], now)
  {}

  lemma Joined(l: Life, now: Time)
    ensures Lives(true, l, Connect(now)) == l.(connections := l.connections + 1)
  {}

  lemma Left(l: Life, now: Time)
    requires l.connections > 0
    ensures Lives(true, l, Disconnect(now)) == l.(connections := l.connections - 1, expires := now + EXPIRY)
  {}

  lemma CleanedUp(l: Life, now: Time)
    ensures Lives(true, l, Cleanup(now)) == if l.connections == 0 && l.expires <= now then UNKNOWN else l
  {}

  predicate UpTo(events: seq<Event>, now: Time) {
    InOrder(events) && forall i :: 0 <= i < |events| ==> At(events[i]) <= now
  }

  /** The record of a charge; one for a new TCP connection is told from others. */
  ghost function Payment(accept: bool, now: Time, size: nat): Event
    requires accept ==> size == 1
  {
    Do(if accept then Accept(now) else Charge(now, size))
  }

  lemma Paid(l: Life, accept: bool, now: Time, size: nat)
    requires accept ==> size == 1
    ensures var payment := Payment(accept, now, size);
            && payment.Do? && At(payment) == now && Size(payment.action) == size
            && Lives(true, l, payment) == l.(entry := Charged(l.entry, now, size))
  {}

  /** A member of each connection, delayed or not. */
  class AccountedClientConnection {
    var perClient: PerClientAccounting?

    constructor ()
      ensures perClient == null
    {
      perClient := null;
    }

    /** Belongs to no client, or to one in the map. */
    ghost predicate Accounted(m: ClientAccountingMap)
      reads this, m
    {
      perClient != null ==> this in m.registered && perClient.clientMap == m && m.Has(perClient)
    }

    /** The destructor. */
    method Destroy(ghost m: ClientAccountingMap)
      requires m.Valid() && Accounted(m)
      modifies this, m`registered, m`history, m`cleanupTimer, (if perClient == null then {} else {perClient})
      ensures m.Valid() && perClient == null && m.registered == old(m.registered) - {this}
      ensures old(m.Capped(perClient)) ==> m.Capped(null)
      ensures m.history == if old(perClient) == null then old(m.history)
              else Note(old(m.history), old(perClient.address), Disconnect(m.now))
    {
      if perClient != null {
        perClient.RemoveConnection(this);
      }
    }

    method UpdateTokenBucket(size: nat, ghost m: ClientAccountingMap)
      requires m.Valid() && Accounted(m) && size <= MAX_CHARGE
      modifies m`history, (if perClient == null then {} else {perClient})
      ensures m.Valid() && (perClient != null ==> perClient.connections == old(perClient.connections))
      ensures m.history == if perClient == null || !m.tarpit then old(m.history)
                           else Note(old(m.history), perClient.address, Do(Charge(m.now, size)))
    {
      hide ClientAccountingMap.Valid;
      hide ClientAccountingMap.Capped;
      if perClient != null {
        perClient.UpdateTokenBucket(size, false);
      }
    }
  }

  class PerClientAccounting {
    const clientMap: ClientAccountingMap
    const address: Key

    /** The intrusive list of connections; its order is never looked at. */
    var connections: set<AccountedClientConnection>
    var expires: Time
    var tarpitUntil: Time
    var delay: Time
    var zeroTime: Time
    var knocked: bool

    constructor (clientMap: ClientAccountingMap, address: Key)
      ensures this.clientMap == clientMap && this.address == address
      ensures connections == {} && GetLife() == UNKNOWN
    {
      this.clientMap, this.address := clientMap, address;
      connections, expires := {}, 0;
      tarpitUntil, delay, zeroTime, knocked := 0, 0, -BURST, false;
    }

    ghost function GetLife(): Life
      reads this
    {
      Life(GetEntry(), |connections|, expires)
    }

    ghost function GetEntry(): Entry
      reads this
    {
      Entry(zeroTime, tarpitUntil, delay, knocked)
    }

    method Check() returns (ok: bool)
      ensures ok <==> clientMap.Room(this)
    {
      return clientMap.maxConnections == 0 || |connections| < clientMap.maxConnections;
    }

    method AddConnection(c: AccountedClientConnection)
      requires clientMap.Valid() && clientMap.Has(this) && c.perClient == null
      modifies this`connections, c, clientMap`registered, clientMap`history
      ensures clientMap.Valid() && c.perClient == this && connections == old(connections) + {c}
      ensures clientMap.registered == old(clientMap.registered) + {c}
      ensures clientMap.history == Note(old(clientMap.history), address, Connect(clientMap.now))
      ensures old(clientMap.Capped(null)) ==> clientMap.Capped(if old(clientMap.Room(this)) then null else this)
    {
      hide ClientAccountingMap.Valid;
      hide ClientAccountingMap.Ahead;
      hide ClientAccountingMap.Capped;
      hide ClientAccountingMap.Room;
      Join(c);
      clientMap.Record(this, Connect(clientMap.now));
    }

    /** All of AddConnection but the record. */
    method Join(c: AccountedClientConnection)
      requires clientMap.Valid() && clientMap.Has(this) && c.perClient == null
      modifies this`connections, c, clientMap`registered
      ensures clientMap.Ahead(this, Connect(clientMap.now))
      ensures c.perClient == this && connections == old(connections) + {c}
      ensures clientMap.registered == old(clientMap.registered) + {c}
      ensures old(clientMap.Capped(null)) ==> clientMap.Capped(if old(clientMap.Room(this)) then null else this)
    {
      hide Lived;
      hide Lives;
      hide UpTo;
      hide ClientAccountingMap.Linked;
      clientMap.Distinct();
      Joined(GetLife(), clientMap.now);
      Link(c);
      assert |connections| == |old(connections)| + 1;
    }

    method Link(c: AccountedClientConnection)
      requires clientMap.Linked() && clientMap.Has(this) && c.perClient == null
      modifies this`connections, c, clientMap`registered
      ensures clientMap.Linked() && c.perClient == this && connections == old(connections) + {c}
              && c !in old(connections)
      ensures clientMap.registered == old(clientMap.registered) + {c}
    {
      connections := connections + {c};
      c.perClient := this;
      clientMap.registered := clientMap.registered + {c};
    }

    method Unlink(c: AccountedClientConnection)
      requires clientMap.Linked() && clientMap.Has(this) && c in clientMap.registered && c.perClient == this
      modifies this`connections, c, clientMap`registered
      ensures clientMap.Linked() && c.perClient == null && connections == old(connections) - {c}
              && c in old(connections)
      ensures clientMap.registered == old(clientMap.registered) - {c}
      ensures old(clientMap.Capped(this)) ==> clientMap.Capped(null)
    {
      connections := connections - {c};
      c.perClient := null;
      clientMap.registered := clientMap.registered - {c};
    }

    method RemoveConnection(c: AccountedClientConnection)
      requires clientMap.Valid() && clientMap.Has(this) && c in clientMap.registered && c.perClient == this
      modifies this`connections, this`expires, c, clientMap`registered, clientMap`history, clientMap`cleanupTimer
      ensures clientMap.Valid() && c.perClient == null && connections == old(connections) - {c}
      ensures clientMap.registered == old(clientMap.registered) - {c}
      ensures clientMap.history == Note(old(clientMap.history), address, Disconnect(clientMap.now))
      ensures connections == {} ==> clientMap.cleanupTimer.Some?
      ensures old(clientMap.Capped(this)) ==> clientMap.Capped(null)
    {
      hide ClientAccountingMap.Valid;
      hide ClientAccountingMap.Ahead;
      hide ClientAccountingMap.Capped;
      Leave(c);
      clientMap.Record(this, Disconnect(clientMap.now));
    }

    /** All of RemoveConnection but the record. */
    method Leave(c: AccountedClientConnection)
      requires clientMap.Valid() && clientMap.Has(this) && c in clientMap.registered && c.perClient == this
      modifies this`connections, this`expires, c, clientMap`registered, clientMap`cleanupTimer
      ensures clientMap.Ahead(this, Disconnect(clientMap.now))
      ensures c.perClient == null && connections == old(connections) - {c}
      ensures clientMap.registered == old(clientMap.registered) - {c}
      ensures connections == {} ==> clientMap.cleanupTimer.Some?
      ensures old(clientMap.Capped(this)) ==> clientMap.Capped(null)
    {
      hide ClientAccountingMap.Linked;
      hide ClientAccountingMap.Recorded;
      hide ClientAccountingMap.RecordedBut;
      hide ClientAccountingMap.Capped;
      Retire(c);
      ScheduleIfEmpty();
    }

    /** Unlinks, and sets the time after which an empty entry may go. */
    method Retire(c: AccountedClientConnection)
      requires clientMap.Linked() && clientMap.Has(this) && c in clientMap.registered && c.perClient == this
      requires clientMap.Recorded()
      modifies this`connections, this`expires, c, clientMap`registered
      ensures clientMap.Linked() && clientMap.RecordedBut(this, Disconnect(clientMap.now))
      ensures expires == clientMap.now + EXPIRY
      ensures c.perClient == null && connections == old(connections) - {c}
      ensures clientMap.registered == old(clientMap.registered) - {c}
      ensures old(clientMap.Capped(this)) ==> clientMap.Capped(null)
    {
      hide Lived;
      hide Lives;
      hide UpTo;
      hide ClientAccountingMap.Linked;
      hide ClientAccountingMap.Capped;
      clientMap.Distinct();
      ghost var was := GetLife();
      Unlink(c);
      assert |connections| == was.connections - 1;
      Left(was, clientMap.now);
      expires := clientMap.now + EXPIRY;
    }

    method ScheduleIfEmpty()
      modifies clientMap`cleanupTimer
      ensures clientMap.cleanupTimer ==
              if connections != {} || old(clientMap.cleanupTimer).Some? then old(clientMap.cleanupTimer)
              else Packets.Some(clientMap.now + CLEANUP_INTERVAL)
    {
      if connections == {} {
        clientMap.ScheduleCleanup();
      }
    }

    /** Charges the token bucket; `accept` tells a new TCP connection from other
        charges, for the record only. */
    method UpdateTokenBucket(size: nat, ghost accept: bool)
      requires clientMap.Valid() && clientMap.Has(this) && size <= MAX_CHARGE && (accept ==> size == 1)
      modifies this`zeroTime, this`tarpitUntil, this`delay, this`knocked, clientMap`history
      ensures clientMap.Valid()
      ensures clientMap.history ==
              if clientMap.tarpit then Note(old(clientMap.history), address, Payment(accept, clientMap.now, size))
              else old(clientMap.history)
    {
      hide ClientAccountingMap.Linked;
      hide ClientAccountingMap.Timed;
      hide Lived;
      hide UpTo;
      hide Charged;
      hide Lives;
      hide Payment;
      Paid(GetLife(), accept, clientMap.now, size);
      clientMap.Distinct();
      if clientMap.tarpit {
        Deduct(size);
        clientMap.Record(this, Payment(accept, clientMap.now, size));
      }
    }

    /** The part of UpdateTokenBucket behind the check for the tarpit. */
    method Deduct(size: nat)
      modifies this`zeroTime, this`tarpitUntil, this`delay, this`knocked
      ensures GetEntry() == Charged(old(GetEntry()), clientMap.now, size)
    {
      var now := clientMap.now;
      var available := Packets.Min(BURST, now - zeroTime) - size * SECOND;
      zeroTime := now - available;
      if available < 0 {
        tarpitUntil := now + TARPIT_FOR;
        if delay < MAX_DELAY {
          delay := delay + DELAY_STEP;
        }
        knocked := false;
      } else if now < tarpitUntil {
        if delay > DELAY_STEP {
          delay := delay - DELAY_STEP;
        }
      } else {
        delay := 0;
      }
    }

    method SetKnocked()
      requires clientMap.Valid() && clientMap.Has(this)
      modifies this`knocked, clientMap`history
      ensures clientMap.Valid()
      ensures clientMap.history == Note(old(clientMap.history), address, Do(Knock(clientMap.now)))
    {
      hide ClientAccountingMap.Linked;
      hide ClientAccountingMap.Timed;
      hide Lived;
      hide UpTo;
      clientMap.Distinct();
      knocked := true;
      clientMap.Record(this, Do(Knock(clientMap.now)));
    }
  }

  class ClientAccountingMap {
    const maxConnections: nat
    const tarpit: bool
    var clients: map<Key, PerClientAccounting>
    var cleanupTimer: Packets.Option<Time>

    /** The event loop's clock. */
    var now: Time

    ghost var shutdown: bool

    /** All connections that count for a client. */
    ghost var registered: set<AccountedClientConnection>

    /** Everything that ever happened to each client. */
    ghost var history: Histories

    /** Connections and entries point at each other, and only at entries that are
        still in the map. */
    ghost predicate Linked()
      reads this`clients, this`registered, clients.Values`connections, registered
    {
      && 0 !in clients
      && (forall k <- clients :: clients[k].address == k && clients[k].clientMap == this)
      && (forall k <- clients, c <- clients[k].connections :: c in registered && c.perClient == clients[k])
      && (forall c <- registered :: c.perClient != null && Has(c.perClient) && c in c.perClient.connections)
    }

    /** The entry is in the map. */
    ghost predicate Has(p: PerClientAccounting)
      reads this`clients
    {
      p.address in clients && clients[p.address] == p
    }

    ghost function LifeOf(k: Key): Life
      reads this`clients, clients.Values
    {
      if k in clients then clients[k].GetLife() else UNKNOWN
    }

    /** Each entry is what its client's past makes it; a client without an entry is
        as good as unknown. */
    ghost predicate Recorded()
      reads this`clients, this`history, this`now, clients.Values
    {
      && clients.Keys <= history.Keys
      && forall k <- history :: LifeOf(k) == Lived(true, history[k]) && UpTo(history[k], now)
    }

    /** The timer runs for at most a minute and is never passed by the clock; and an
        empty entry that ever held a connection has it running, to fire no more than
        a minute after the entry expires. */
    ghost predicate Timed()
      reads this`clients, this`cleanupTimer, this`now, this`shutdown
      reads clients.Values`connections, clients.Values`expires
    {
      && (cleanupTimer.Some? ==> now <= cleanupTimer.value <= now + CLEANUP_INTERVAL)
      && (!shutdown ==> forall k <- clients :: clients[k].connections == {} && clients[k].expires != 0 ==>
            cleanupTimer.Some? && cleanupTimer.value <= clients[k].expires + CLEANUP_INTERVAL)
    }

    ghost predicate Valid()
      reads this, clients.Values, registered
    {
      0 <= now && Linked() && Recorded() && Timed()
    }

    /** No client has more connections than the cap allows, except that one may
        have one too many. */
    ghost predicate Capped(extra: PerClientAccounting?)
      reads this`clients, clients.Values`connections
    {
      maxConnections != 0 ==>
        forall k <- clients :: |clients[k].connections| <= maxConnections + if clients[k] == extra then 1 else 0
    }

    lemma CappedBut(extra: PerClientAccounting?)
      requires Capped(null)
      ensures Capped(extra)
    {}

    /** Map keys are distinct, and every entry knows its own. */
    lemma Distinct()
      requires Linked()
      ensures forall k <- clients :: Has(clients[k]) && clients[k].address == k && clients[k].clientMap == this
    {}

    lemma Counts(c: AccountedClientConnection)
      requires Valid() && c in registered
      ensures c.Accounted(this) && c.perClient != null && c in c.perClient.connections
    {}

    /** What is known of a client is what its past says. */
    lemma Remembers(p: PerClientAccounting)
      requires Valid() && Has(p)
      ensures p.GetLife() == Lived(true, Past(history, p.address)) && p.clientMap == this
    {}

    /** Until the shutdown, a client is forgotten at most six minutes after its last
        disconnect, unless it connects again. */
    lemma GoneInSixMinutes(k: Key, j: nat)
      requires Valid() && !shutdown && k in history && j < |history[k]| && AwaySince(history[k], j)
      requires Lived(true, history[k][..j]).connections == 1
      ensures now > At(history[k][j]) + 360_000_000_000 ==> FiredAfter(history[k], j)
    {
      hide Lived;
      hide FiredAfter;
      ForgottenIff(history[k], j);
      assert LifeOf(k) == Lived(true, history[k]) && UpTo(history[k], now);
      assert k in clients ==> (|clients[k].connections| == 0 <==> clients[k].connections == {});
    }

    lemma Told(k: Key)
      requires Valid()
      ensures UpTo(Past(history, k), now)
    {}

    /** The client may have one more connection. */
    predicate Room(p: PerClientAccounting)
      reads p`connections
    {
      maxConnections == 0 || |p.connections| < maxConnections
    }

    constructor (maxConnections: nat, tarpit: bool)
      ensures Valid() && history == map[] && this.maxConnections == maxConnections && this.tarpit == tarpit
      ensures clients == map[] && registered == {} && Capped(null)
    {
      this.maxConnections, this.tarpit := maxConnections, tarpit;
      clients, cleanupTimer, now := map[], Packets.None, 0;
      shutdown, registered, history := false, {}, map[];
    }

    /** Valid, but one entry is a step ahead of its history. */
    ghost predicate Ahead(p: PerClientAccounting, e: Event)
      reads this, clients.Values, registered
    {
      && 0 <= now && Linked() && Timed() && RecordedBut(p, e)
      && At(e) == now && (e.Do? ==> Size(e.action) <= MAX_CHARGE)
    }

    ghost predicate RecordedBut(p: PerClientAccounting, e: Event)
      reads this`clients, this`history, this`now, clients.Values
    {
      && Has(p) && clients.Keys <= history.Keys
      && (forall k <- history :: UpTo(history[k], now) && (k == p.address || LifeOf(k) == Lived(true, history[k])))
      && p.GetLife() == Lives(true, Lived(true, history[p.address]), e)
    }

    ghost method Record(p: PerClientAccounting, e: Event)
      requires Ahead(p, e)
      modifies this`history
      ensures Valid() && history == Note(old(history), p.address, e)
    {
      hide Lived;
      hide UpTo;
      hide Linked;
      hide Timed;
      PastOn(history[p.address], e, now);
      history := Note(history, p.address, e);
    }

    method Get(address: Key) returns (perClient: PerClientAccounting?)
      requires Valid()
      modifies this`clients, this`history
      ensures Valid()
      ensures perClient == null <==> address == 0
      ensures address == 0 ==> clients == old(clients)
      ensures perClient != null ==> Has(perClient) && perClient.address == address && perClient.clientMap == this
      ensures forall k <- old(clients) :: k in clients && clients[k] == old(clients)[k]
      ensures forall k <- clients ::
                k in old(clients) || (k == address && fresh(clients[k]) && clients[k].connections == {})
      ensures forall k :: Past(history, k) == old(Past(history, k))
      ensures fresh(clients.Values - old(clients.Values))
      ensures old(Capped(null)) ==> Capped(null)
    {
      hide Recorded;
      hide Linked;
      hide Timed;
      hide Capped;
      if address == 0 {
        return null;
      }
      if address in clients {
        Distinct();
        return clients[address];
      }
      perClient := Create(address);
    }

    /** A new entry, for a client that is not known, or no longer. */
    method Create(address: Key) returns (perClient: PerClientAccounting)
      requires Linked() && Recorded() && Timed() && 0 <= now && address != 0 && address !in clients
      modifies this`clients, this`history
      ensures Linked() && Recorded() && Timed()
      ensures fresh(perClient) && clients == old(clients)[address := perClient] && perClient.connections == {}
      ensures Has(perClient) && perClient.address == address && perClient.clientMap == this
      ensures forall k :: Past(history, k) == old(Past(history, k))
      ensures old(Capped(null)) ==> Capped(null)
    {
      hide Lived;
      hide UpTo;
      hide Linked;
      hide Capped;
      perClient := Insert(address);
      Open(address);
    }

    /** A new entry's past, empty if it is the client's first. */
    ghost method Open(address: Key)
      requires address in clients && LifeOf(address) == UNKNOWN && clients.Keys <= history.Keys + {address}
      requires forall k <- history :: LifeOf(k) == Lived(true, history[k]) && UpTo(history[k], now)
      modifies this`history
      ensures Recorded()
      ensures forall k :: Past(history, k) == old(Past(history, k))
    {
      hide Lived;
      hide UpTo;
      NothingLived(now);
      history := history[address := Past(history, address)];
    }

    method Insert(address: Key) returns (perClient: PerClientAccounting)
      requires Linked() && address != 0 && address !in clients
      modifies this`clients
      ensures Linked() && fresh(perClient) && clients == old(clients)[address := perClient]
      ensures Has(perClient) && perClient.address == address && perClient.clientMap == this
      ensures perClient.connections == {} && perClient.GetLife() == UNKNOWN
      ensures old(Capped(null)) ==> Capped(null)
    {
      perClient := new PerClientAccounting(this, address);
      clients := clients[address := perClient];
    }

    method ScheduleCleanup()
      modifies this`cleanupTimer
      ensures cleanupTimer == if old(cleanupTimer).Some? then old(cleanupTimer)
              else Packets.Some(now + 60_000_000_000)
    {
      if cleanupTimer.None? {
        cleanupTimer := Packets.Some(now + CLEANUP_INTERVAL);
      }
    }

    /** An entry that the cleanup may delete. */
    predicate Deletable(p: PerClientAccounting)
      reads this`now, p
    {
      p.connections == {} && p.expires <= now
    }

    /** The entries that a cleanup leaves. */
    function Survivors(): map<Key, PerClientAccounting>
      reads this`clients, this`now, clients.Values
    {
      map k | k in clients && !Deletable(clients[k]) :: clients[k]
    }

    ghost predicate AnyEmpty()
      reads this`clients, clients.Values`connections
    {
      exists k | k in clients :: clients[k].connections == {}
    }

    /** Deletes the deletable entries, and tells whether other empty ones remain. */
    method Sweep() returns (reschedule: bool)
      requires Linked()
      modifies this`clients
      ensures Linked()
      ensures clients == old(Survivors()) && clients.Keys <= old(clients).Keys
      ensures reschedule <==> AnyEmpty()
    {
      reschedule := false;
      var todo := clients.Keys;
      while todo != {}
        invariant todo <= clients.Keys <= old(clients).Keys
        invariant forall k <- clients :: clients[k] == old(clients)[k]
        invariant forall k <- old(clients) :: k in clients <==> k in todo || !Deletable(old(clients)[k])
        invariant reschedule <==> exists k | k in clients && k !in todo :: clients[k].connections == {}
      {
        var k :| k in todo;
        todo := todo - {k};
        if clients[k].connections == {} {
          if now < clients[k].expires {
            reschedule := true;
          } else {
            clients := clients - {k};
          }
        }
      }
    }

    /** Everyone's past lacks one firing of the timer. */
    ghost predicate Swept()
      reads this`clients, this`history, this`now, clients.Values
    {
      && clients.Keys <= history.Keys
      && forall k <- history ::
           UpTo(history[k], now) && LifeOf(k) == Lives(true, Lived(true, history[k]), Cleanup(now))
    }

    method OnCleanupTimer()
      requires Valid() && cleanupTimer.Some?
      modifies this`clients, this`cleanupTimer, this`history
      ensures Valid()
      ensures clients.Values <= old(clients.Values) && (old(Capped(null)) ==> Capped(null))
      ensures clients == old(Survivors())
      ensures cleanupTimer == if AnyEmpty() then Packets.Some(now + CLEANUP_INTERVAL) else Packets.None
      ensures history == AllCleaned(old(history), now)
    {
      hide Linked;
      hide Recorded;
      hide Swept;
      hide AllCleaned;
      hide Survivors;
      cleanupTimer := Packets.None;
      var reschedule := DeleteExpired();
      if reschedule {
        ScheduleCleanup();
      }
      RecordCleanup();
    }

    method DeleteExpired() returns (reschedule: bool)
      requires Linked() && Recorded()
      modifies this`clients
      ensures Linked() && Swept() && clients == old(Survivors())
      ensures clients.Values <= old(clients.Values) && (old(Capped(null)) ==> Capped(null))
      ensures reschedule <==> AnyEmpty()
      ensures forall k <- clients :: clients[k].connections == {} ==> clients[k].expires > now
    {
      hide Linked;
      hide Lived;
      hide Lives;
      hide UpTo;
      hide AnyEmpty;
      ghost var was := map k | k in history :: LifeOf(k);
      forall k <- was
        ensures Lives(true, was[k], Cleanup(now)) ==
                if k in clients && Deletable(clients[k]) then UNKNOWN else was[k]
      {
        CleanedUp(was[k], now);
      }
      reschedule := Sweep();
    }

    ghost method RecordCleanup()
      requires Swept() && 0 <= now
      modifies this`history
      ensures Recorded()
      ensures history == AllCleaned(old(history), now)
    {
      hide Lived;
      hide UpTo;
      ghost var was := history;
      history := AllCleaned(was, now);
      forall k <- history ensures LifeOf(k) == Lived(true, history[k]) && UpTo(history[k], now) {
        PastOn(was[k], Cleanup(now), now);
      }
    }

    method Shutdown()
      requires Valid()
      modifies this`cleanupTimer, this`shutdown
      ensures Valid() && cleanupTimer == Packets.None && shutdown
    {
      hide Linked;
      hide Recorded;
      cleanupTimer := Packets.None;
      shutdown := true;
    }

    /** Time passes, but not past a timer that is due. */
    method Tick(time: Time)
      requires Valid() && now <= time && (cleanupTimer.Some? ==> time <= cleanupTimer.value)
      modifies this`now
      ensures Valid() && now == time
    {
      hide Linked;
      hide Lived;
      now := time;
    }
  }
}
