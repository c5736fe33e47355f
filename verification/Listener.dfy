// Who may connect (src/Listener.cxx, src/DelayedConnection.cxx).
module Listening {
  import opened Limiter
  import opened ClientAccounting

  /** A connection that waits in the tarpit. */
  class DelayedConnection {
    const peerAddress: Key
    const accounting: AccountedClientConnection
    const timer: Time

    constructor (peerAddress: Key, accounting: AccountedClientConnection, timer: Time)
      ensures this.peerAddress == peerAddress && this.accounting == accounting && this.timer == timer
    {
      this.peerAddress, this.accounting, this.timer := peerAddress, accounting, timer;
    }
  }

  /** What a new TCP connection adds to its client's past before the decision. */
  function OnCharge(past: seq<Event>, tarpit: bool, now: Time): seq<Event> {
    if tarpit then past + [Do(Accept(now))] else past
  }

  class Listener {
    const accounts: ClientAccountingMap
    const requireKnock: bool

    /** The accounting members of the connections, and the delayed connections. */
    var connections: set<AccountedClientConnection>
    var delayedConnections: set<DelayedConnection>

    var missingKnocks: nat
    var delayed: nat

    ghost predicate Valid()
      reads this, accounts, accounts.clients.Values, accounts.registered, connections
    {
      Holds(null)
    }

    /** Valid, but one client may have one connection too many. */
    ghost predicate Holds(extra: PerClientAccounting?)
      reads this, accounts, accounts.clients.Values, accounts.registered, connections
    {
      accounts.Valid() && accounts.Capped(extra) && Listed()
    }

    /** The lists hold members that count, each once. */
    ghost predicate Listed()
      reads this`connections, this`delayedConnections, accounts`registered, connections
    {
      && (forall c <- connections :: c.perClient != null ==> c in accounts.registered)
      && (forall d <- delayedConnections :: d.accounting in accounts.registered && d.accounting !in connections)
      && (forall d <- delayedConnections, e <- delayedConnections :: d.accounting == e.accounting ==> d == e)
    }

    /** All objects that belong to this listener or to the accounting. */
    ghost function Footprint(): set<object>
      reads this, accounts
    {
      {this, accounts} + accounts.clients.Values + accounts.registered + connections
    }

    /** A delayed connection and its entry are among them. */
    lemma Within(d: DelayedConnection)
      requires Valid() && d in delayedConnections
      ensures d.accounting in Footprint() && d.accounting.perClient in Footprint()
    {}

    lemma WithinConnection(c: AccountedClientConnection)
      requires Valid() && c in connections
      ensures c in Footprint() && (c.perClient != null ==> c.perClient in Footprint())
    {}

    /** What OnAccept decides for a client with this past. */
    ghost function Verdict(past: seq<Event>): Admission {
      var l := Lived(true, past);
      Admit(l.entry, requireKnock, accounts.maxConnections, l.connections)
    }

    /** What a verdict means, told from the client's past up to its own charge: an
        accepted knock stands wherever one is required, and whoever is let in waits
        exactly if the limit was exceeded less than a minute ago. */
    ghost predicate Justified(past: seq<Event>, verdict: Admission) {
      var h := Since(past);
      && h != []
      && (verdict == MissingKnock <==> requireKnock && !KnockStands(h))
      && (verdict == TooMany <==>
           verdict != MissingKnock && 0 < accounts.maxConnections <= Lived(true, past).connections)
      && (verdict.Delayed? <==>
           verdict != MissingKnock && verdict != TooMany && h[|h| - 1].at < LastOver(h) + 60_000_000_000)
      && (verdict.Delayed? ==> verdict.delay == DelayTold(h))
    }

    lemma VerdictJustified(past: seq<Event>, now: Time)
      requires InOrder(past + [Do(Accept(now))])
      ensures Justified(past + [Do(Accept(now))], Verdict(past + [Do(Accept(now))]))
    {
      hide KnockStands;
      hide LastOver;
      hide DelayTold;
      hide Since;
      hide Lived;
      hide Admit;
      AdmissionTold(past + [Do(Accept(now))], requireKnock, accounts.maxConnections);
    }

    constructor (accounts: ClientAccountingMap, requireKnock: bool)
      requires accounts.Valid() && accounts.Capped(null)
      ensures Valid() && this.accounts == accounts && this.requireKnock == requireKnock && missingKnocks == delayed == 0
      ensures connections == {} && delayedConnections == {}
    {
      this.accounts, this.requireKnock := accounts, requireKnock;
      connections, delayedConnections, missingKnocks, delayed := {}, {}, 0, 0;
    }

    method AddConnection(perClient: PerClientAccounting?) returns (c: AccountedClientConnection)
      requires Valid()
      requires perClient != null ==> perClient.clientMap == accounts && accounts.Has(perClient)
      modifies this`connections, accounts`registered, accounts`history,
              (if perClient == null then {} else {perClient})`connections
      ensures Holds(if perClient == null || old(accounts.Room(perClient)) then null else perClient)
      ensures fresh(c) && c !in old(connections) && connections == old(connections) + {c} && c.perClient == perClient
      ensures accounts.registered == old(accounts.registered) + (if perClient == null then {} else {c})
      ensures perClient == null ==> accounts.history == old(accounts.history)
      ensures perClient != null ==>
                accounts.history == Note(old(accounts.history), perClient.address, Connect(accounts.now))
    {
      hide ClientAccountingMap.Valid;
      hide ClientAccountingMap.Capped;
      hide ClientAccountingMap.Room;
      c := new AccountedClientConnection();
      if perClient != null {
        perClient.AddConnection(c);
      }
      connections := connections + {c};
    }

    /** Charges a new TCP connection and decides on it. */
    method Judge(perClient: PerClientAccounting) returns (verdict: Admission)
      requires accounts.Valid() && perClient.clientMap == accounts && accounts.Has(perClient)
      modifies this`missingKnocks, this`delayed, accounts`history
      modifies perClient`zeroTime, perClient`tarpitUntil, perClient`delay, perClient`knocked
      ensures accounts.Valid()
      ensures var past := Past(old(accounts.history), perClient.address);
              && verdict == Verdict(OnCharge(past, accounts.tarpit, accounts.now))
              && Past(accounts.history, perClient.address) == OnCharge(past, accounts.tarpit, accounts.now)
      ensures forall k | k != perClient.address :: Past(accounts.history, k) == Past(old(accounts.history), k)
      ensures verdict.Delayed? || verdict.Admitted? ==> accounts.Room(perClient)
      ensures verdict.Delayed? ==> verdict.delay == perClient.delay
      ensures missingKnocks == old(missingKnocks) + (if verdict.MissingKnock? then 1 else 0)
      ensures delayed == old(delayed) + (if verdict.Delayed? then 1 else 0)
    {
      hide ClientAccountingMap.Valid;
      hide Lived;
      perClient.UpdateTokenBucket(1, true);
      accounts.Remembers(perClient);
      if requireKnock && !perClient.knocked {
        missingKnocks := missingKnocks + 1;
        return MissingKnock;
      }
      var ok := perClient.Check();
      if !ok {
        return TooMany;
      }
      if perClient.delay > 0 {
        delayed := delayed + 1;
        return Delayed(perClient.delay);
      }
      return Admitted;
    }

    /** DelayedConnection's constructor, and its place in the list. */
    method AddDelayed(perClient: PerClientAccounting, delay: Time) returns (d: DelayedConnection)
      requires Valid() && perClient.clientMap == accounts && accounts.Has(perClient) && accounts.Room(perClient)
      modifies this`delayedConnections, accounts`registered, accounts`history, perClient`connections
      ensures Valid() && d !in old(delayedConnections) && delayedConnections == old(delayedConnections) + {d}
      ensures fresh(d) && fresh(d.accounting) && accounts.registered == old(accounts.registered) + {d.accounting}
      ensures d.peerAddress == perClient.address && d.timer == accounts.now + delay
      ensures accounts.history == Note(old(accounts.history), perClient.address, Connect(accounts.now))
    {
      hide ClientAccountingMap.Valid;
      hide ClientAccountingMap.Capped;
      hide ClientAccountingMap.Room;
      var c := new AccountedClientConnection();
      d := new DelayedConnection(perClient.address, c, accounts.now + delay);
      perClient.AddConnection(c);
      delayedConnections := delayedConnections + {d};
    }

    /** Everything in OnAccept up to the decision. */
    method Receive(address: Key) returns (perClient: PerClientAccounting?, verdict: Admission)
      requires Valid()
      modifies this`missingKnocks, this`delayed, accounts`clients, accounts`history, accounts.clients.Values
      ensures Valid()
      ensures perClient == null <==> address == 0
      ensures perClient != null ==>
                accounts.Has(perClient) && perClient.address == address && perClient.clientMap == accounts
      ensures perClient != null && (verdict.Delayed? || verdict.Admitted?) ==> accounts.Room(perClient)
      ensures perClient != null ==> perClient in old(accounts.clients.Values) || fresh(perClient)
      ensures fresh(accounts.clients.Values - old(accounts.clients.Values)) && fresh(Footprint() - old(Footprint()))
      ensures var past := OnCharge(Past(old(accounts.history), address), accounts.tarpit, accounts.now);
              && verdict == (if address == 0 then Admitted else Verdict(past))
              && (address != 0 ==> Past(accounts.history, address) == past)
              && (address != 0 && accounts.tarpit ==> Justified(past, verdict))
      ensures forall k | k != address || k == 0 :: Past(accounts.history, k) == Past(old(accounts.history), k)
    {
      hide ClientAccountingMap.Valid;
      hide ClientAccountingMap.Capped;
      hide ClientAccountingMap.Room;
      hide Listed;
      hide Lived;
      hide Verdict;
      hide Justified;
      perClient := accounts.Get(address);
      verdict := Admitted;
      if perClient != null {
        ghost var past := Past(accounts.history, address);
        verdict := Judge(perClient);
        accounts.Told(address);
        if accounts.tarpit {
          VerdictJustified(past, accounts.now);
        }
      }
    }

    /** The rest of OnAccept: the connection is let in, at once or later, or not. */
    method Place(perClient: PerClientAccounting?, address: Key, verdict: Admission)
      requires Valid() && (perClient == null <==> address == 0) && (perClient == null ==> verdict.Admitted?)
      requires perClient != null ==>
                 accounts.Has(perClient) && perClient.address == address && perClient.clientMap == accounts
      requires perClient != null && (verdict.Delayed? || verdict.Admitted?) ==> accounts.Room(perClient)
      modifies this`connections, this`delayedConnections, accounts`registered, accounts`history
      modifies (if perClient == null then {} else {perClient})`connections
      ensures Valid() && fresh(Footprint() - old(Footprint()))
      ensures accounts.history == if perClient != null && (verdict.Delayed? || verdict.Admitted?)
                                  then Note(old(accounts.history), address, Connect(accounts.now))
                                  else old(accounts.history)
      ensures if verdict.Admitted? then exists c | c !in old(connections) :: connections == old(connections) + {c}
              else connections == old(connections)
      ensures if verdict.Delayed? then
                exists d | d !in old(delayedConnections) :: delayedConnections == old(delayedConnections) + {d}
                  && d.peerAddress == address && d.timer == accounts.now + verdict.delay
              else delayedConnections == old(delayedConnections)
    {
      hide ClientAccountingMap.Valid;
      hide ClientAccountingMap.Capped;
      hide ClientAccountingMap.Room;
      hide Listed;
      if verdict.Admitted? {
        var c := AddConnection(perClient);
        assert c !in old(connections) && connections == old(connections) + {c};
      } else if verdict.Delayed? {
        var d := AddDelayed(perClient, verdict.delay);
        assert d !in old(delayedConnections) && delayedConnections == old(delayedConnections) + {d};
      }
    }

    /** A new TCP connection: what is decided, and what its client's past becomes. */
    method OnAccept(address: Key) returns (verdict: Admission)
      requires Valid()
      modifies this, accounts`clients, accounts`history, accounts`registered, accounts.clients.Values
      ensures Valid()
      ensures fresh(Footprint() - old(Footprint()))
      ensures var past := OnCharge(Past(old(accounts.history), address), accounts.tarpit, accounts.now);
              && verdict == (if address == 0 then Admitted else Verdict(past))
              && (address != 0 && accounts.tarpit ==> Justified(past, verdict))
              && (address != 0 ==>
                   Past(accounts.history, address) ==
                   if verdict.Delayed? || verdict.Admitted? then past + [Connect(accounts.now)] else past)
      ensures forall k | k != address || k == 0 :: Past(accounts.history, k) == Past(old(accounts.history), k)
      ensures if verdict.Admitted? then exists c | c !in old(connections) :: connections == old(connections) + {c}
              else connections == old(connections)
      ensures if verdict.Delayed? then
                exists d | d !in old(delayedConnections) :: delayedConnections == old(delayedConnections) + {d}
                  && d.peerAddress == address && d.timer == accounts.now + verdict.delay
              else delayedConnections == old(delayedConnections)
    {
      hide ClientAccountingMap.Valid;
      hide ClientAccountingMap.Capped;
      hide ClientAccountingMap.Room;
      hide Listed;
      hide Verdict;
      hide Justified;
      hide OnCharge;
      var perClient;
      perClient, verdict := Receive(address);
      Place(perClient, address, verdict);
    }

    /** DelayedConnection::OnTimer: the client's connection is handed over to a real
        one, and meanwhile counts twice. */
    method OnTimer(d: DelayedConnection) returns (c: AccountedClientConnection)
      requires Valid() && d in delayedConnections
      modifies this, accounts`registered, accounts`history, accounts`cleanupTimer
      modifies d.accounting, d.accounting.perClient
      ensures Valid() && delayedConnections == old(delayedConnections) - {d}
      ensures fresh(Footprint() - old(Footprint()))
      ensures c !in old(connections) && connections == old(connections) + {c}
      ensures c.perClient == old(d.accounting.perClient)
      ensures var k := old(d.accounting.perClient.address);
              accounts.history ==
                Note(Note(old(accounts.history), k, Connect(accounts.now)), k, Disconnect(accounts.now))
    {
      hide ClientAccountingMap.Valid;
      hide ClientAccountingMap.Capped;
      accounts.Counts(d.accounting);
      c := AddConnection(d.accounting.perClient);
      Destroy(d);
    }

    method Destroy(d: DelayedConnection)
      requires Holds(null) || Holds(d.accounting.perClient)
      requires d in delayedConnections
      modifies this`delayedConnections, accounts`registered, accounts`history, accounts`cleanupTimer
      modifies d.accounting, d.accounting.perClient
      ensures Valid() && delayedConnections == old(delayedConnections) - {d}
      ensures accounts.registered <= old(accounts.registered)
      ensures old(d.accounting.perClient) != null
      ensures accounts.history ==
                Note(old(accounts.history), old(d.accounting.perClient.address), Disconnect(accounts.now))
    {
      hide ClientAccountingMap.Valid;
      hide ClientAccountingMap.Capped;
      if Holds(null) {
        accounts.CappedBut(d.accounting.perClient);
      }
      accounts.Counts(d.accounting);
      d.accounting.Destroy(accounts);
      delayedConnections := delayedConnections - {d};
    }

    /** DelayedConnection::OnSocketReady: the client has gone. */
    method OnSocketReady(d: DelayedConnection)
      requires Valid() && d in delayedConnections
      modifies this, accounts`registered, accounts`history, accounts`cleanupTimer
      modifies d.accounting, d.accounting.perClient
      ensures Valid() && delayedConnections == old(delayedConnections) - {d} && connections == old(connections)
      ensures fresh(Footprint() - old(Footprint()))
      ensures var k := old(d.accounting.perClient.address);
              var charged := if accounts.tarpit then Note(old(accounts.history), k, Do(Charge(accounts.now, 4)))
                             else old(accounts.history);
              accounts.history == Note(charged, k, Disconnect(accounts.now))
    {
      hide ClientAccountingMap.Valid;
      accounts.Counts(d.accounting);
      d.accounting.UpdateTokenBucket(4, accounts);
      Destroy(d);
    }

    /** A connection charges its client. */
    method OnCharged(c: AccountedClientConnection, size: nat)
      requires Valid() && c in connections && size <= MAX_CHARGE
      modifies accounts`history, (if c.perClient == null then {} else {c.perClient})
      ensures Valid()
      ensures fresh(Footprint() - old(Footprint()))
      ensures accounts.history == if c.perClient == null || !accounts.tarpit then old(accounts.history)
                                  else Note(old(accounts.history), c.perClient.address, Do(Charge(accounts.now, size)))
    {
      hide ClientAccountingMap.Valid;
      if c.perClient != null {
        accounts.Counts(c);
      }
      c.UpdateTokenBucket(size, accounts);
    }

    /** A connection ends. */
    method OnClosed(c: AccountedClientConnection)
      requires Valid() && c in connections
      modifies this`connections, accounts`registered, accounts`history, accounts`cleanupTimer
      modifies c, (if c.perClient == null then {} else {c.perClient})
      ensures Valid() && connections == old(connections) - {c}
      ensures fresh(Footprint() - old(Footprint()))
      ensures accounts.history == if old(c.perClient) == null then old(accounts.history)
                                  else Note(old(accounts.history), old(c.perClient.address), Disconnect(accounts.now))
    {
      hide ClientAccountingMap.Valid;
      if c.perClient != null {
        accounts.Counts(c);
      }
      c.Destroy(accounts);
      connections := connections - {c};
    }
  }
}
