// Many connections over one pool of pipes: the objects of src/Connection.cxx in
// any interleaving of their events.
module ConnectionPool {
  import opened Kernel
  import opened Splicing
  import opened ProxySpec
  import opened ProxyInvariant
  import opened Proxy

  /** An event for one of the connections. */
  datatype Turn = Turn(i: nat, event: Event)

  /** What the i-th connection sees of it all. */
  function EventsOf(turns: seq<Turn>, i: nat): seq<Event> {
    if turns == [] then []
    else EventsOf(turns[..|turns| - 1], i) + if turns[|turns| - 1].i == i then [turns[|turns| - 1].event] else []
  }

  /** The event loop delivers each event only where it can. */
  predicate DeliveredAt(setups: seq<Setup>, turns: seq<Turn>, k: nat)
    requires k < |turns|
  {
    && turns[k].i < |setups|
    && Dispatched(Run(setups[turns[k].i], EventsOf(turns[..k], turns[k].i)), turns[k].event)
  }

  lemma EventsOn(turns: seq<Turn>, k: nat, i: nat, s: Setup)
    requires k < |turns|
    ensures turns[k].i != i ==> EventsOf(turns[..k + 1], i) == EventsOf(turns[..k], i)
    ensures turns[k].i == i ==>
              Run(s, EventsOf(turns[..k + 1], i)) == Step(s, Run(s, EventsOf(turns[..k], i)), turns[k].event)
  {
    assert turns[..k + 1][..k] == turns[..k];
    var before := EventsOf(turns[..k], i);
    if turns[k].i == i {
      assert (before + [turns[k].event])[..|before|] == before;
    } else {
      assert before + [] == before;
    }
  }

  /** What a connection owns. */
  ghost function Own(c: Connection): set<object> { {c, c.spliceInOut, c.spliceOutIn, c.initialPackets} }

  ghost predicate Apart(conns: seq<Connection>) {
    forall i, j | 0 <= i < j < |conns| :: Own(conns[i]) !! Own(conns[j])
  }

  /** All over the same pool, in the states that their own events have led to. */
  ghost predicate Ran(setups: seq<Setup>, conns: seq<Connection>, turns: seq<Turn>, stock: PipeStock)
    reads conns, stock, stock.pipes, stock.splices, set c <- conns :: c.initialPackets
  {
    && |conns| == |setups| && Apart(conns)
    && forall i | 0 <= i < |conns| ::
         && conns[i].stock == stock && conns[i].setup == setups[i] && conns[i].Valid()
         && conns[i].View() == Run(setups[i], EventsOf(turns, i))
  }

  /** What the i-th connection's part of this is. */
  ghost predicate RanOne(s: Setup, c: Connection, events: seq<Event>, stock: PipeStock)
    reads c, c.initialPackets, stock, stock.pipes, stock.splices
  {
    c.stock == stock && c.setup == s && c.Valid() && c.View() == Run(s, events)
  }

  /** An event for another connection leaves this one as it is, though they share
      the pipes: no byte crosses over. */
  method Deliver(setups: seq<Setup>, conns: seq<Connection>, ghost turns: seq<Turn>, t: Turn, stock: PipeStock)
    requires Ran(setups, conns, turns, stock) && t.i < |conns|
    requires Dispatched(Run(setups[t.i], EventsOf(turns, t.i)), t.event)
    modifies Own(conns[t.i]), stock`idle, stock`pipes, stock.pipes
    ensures Ran(setups, conns, turns + [t], stock)
    ensures fresh(stock.pipes - old(stock.pipes))
  {
    hide PipeStock.Valid;
    hide Consistent;
    hide Connection.View;
    hide Run;
    hide Step;
    hide Dispatched;
    hide EventsOf;
    var c := conns[t.i];
    c.Dispatch(t.event);
    assert (turns + [t])[..|turns|] == turns && (turns + [t])[..|turns| + 1] == turns + [t];
    forall i | 0 <= i < |conns| ensures RanOne(setups[i], conns[i], EventsOf(turns + [t], i), stock) {
      EventsOn(turns + [t], |turns|, i, setups[i]);
      if i != t.i {
        assert Own(conns[i]) !! Own(c);
        assert conns[i].View() == old(conns[i].View());
      }
    }
  }

  method Start(setups: seq<Setup>, stock: PipeStock) returns (conns: seq<Connection>)
    requires stock.Valid()
    modifies stock`splices
    ensures Ran(setups, conns, [], stock)
    ensures forall c <- conns :: fresh(Own(c))
  {
    hide PipeStock.Valid;
    hide Consistent;
    hide Connection.View;
    conns := [];
    while |conns| < |setups|
      invariant |conns| <= |setups| && stock.Valid()
      invariant Ran(setups[..|conns|], conns, [], stock)
      invariant forall c <- conns :: fresh(Own(c))
    {
      var c := new Connection(setups[|conns|], stock);
      conns := conns + [c];
    }
    assert setups[..|conns|] == setups;
  }

  /** Any number of connections, and any interleaving of their events: each is in
      exactly the state that its own events lead to. */
  method Serve(setups: seq<Setup>, turns: seq<Turn>) returns (conns: seq<Connection>, stock: PipeStock)
    requires forall k | 0 <= k < |turns| :: DeliveredAt(setups, turns, k)
    ensures Ran(setups, conns, turns, stock)
  {
    hide PipeStock.Valid;
    hide Connection.Valid;
    hide Connection.View;
    hide EventsOf;
    hide Run;
    stock := new PipeStock();
    conns := Start(setups, stock);
    for k := 0 to |turns|
      invariant Ran(setups, conns, turns[..k], stock)
      invariant fresh(stock) && fresh(stock.pipes) && forall c <- conns :: fresh(Own(c))
    {
      assert DeliveredAt(setups, turns, k);
      assert turns[..k + 1] == turns[..k] + [turns[k]];
      Deliver(setups, conns, turns[..k], turns[k], stock);
    }
    assert turns[..|turns|] == turns;
  }
}
