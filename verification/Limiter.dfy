// What the accounting of one client remembers and decides (src/net/ClientAccounting.cxx,
// src/Listener.cxx), as a function of everything that client has done.
module Limiter {
  import Packets

  /** Nanoseconds; tokens are counted in the time it takes to earn them. */
  type Time = int

  const SECOND: Time := 1_000_000_000
  const BURST: Time := 10 * SECOND
  const TARPIT_FOR: Time := 60 * SECOND
  const MAX_DELAY: Time := 60 * SECOND
  const DELAY_STEP: Time := 100_000_000
  const EXPIRY: Time := 300 * SECOND

  /** The most tokens that any single occasion is charged with. */
  const MAX_CHARGE: nat := 10

  /** The state of a PerClientAccounting; its token bucket earns one token each
      second since `zeroTime`, but holds at most ten. */
  datatype Entry = Entry(zeroTime: Time, tarpitUntil: Time, delay: Time, knocked: bool)

  /** A new entry; its bucket is full at any time from 0. */
  const FRESH := Entry(-BURST, 0, 0, false)

  /** What TokenBucket::Update returns: negative if the charge goes over the limit. */
  function Available(e: Entry, now: Time, size: nat): Time {
    Packets.Min(BURST, now - e.zeroTime) - size * SECOND
  }

  /** UpdateTokenBucket, with the tarpit. */
  function Charged(e: Entry, now: Time, size: nat): Entry {
    var available := Available(e, now, size);
    if available < 0 then
      Entry(now - available, now + TARPIT_FOR, if e.delay < MAX_DELAY then e.delay + DELAY_STEP else e.delay, false)
    else if now < e.tarpitUntil then
      e.(zeroTime := now - available, delay := if e.delay > DELAY_STEP then e.delay - DELAY_STEP else e.delay)
    else
      e.(zeroTime := now - available, delay := 0)
  }

  // ---- Histories ----

  /** What happens to one entry: a new TCP connection (which is charged one token),
      any other charge, an accepted knock. */
  datatype Action = Accept(at: Time) | Charge(at: Time, size: nat) | Knock(at: Time)

  /** The tokens that an action costs. */
  function Size(a: Action): nat {
    match a case Accept(_) => 1 case Charge(_, size) => size case Knock(_) => 0
  }

  function Act(e: Entry, a: Action): Entry {
    if a.Knock? then e.(knocked := true) else Charged(e, a.at, Size(a))
  }

  function From(e: Entry, h: seq<Action>): Entry {
    if h == [] then e else Act(From(e, h[..|h| - 1]), h[|h| - 1])
  }

  function After(h: seq<Action>): Entry { From(FRESH, h) }

  /** The clock is monotone. */
  predicate Ordered(h: seq<Action>) {
    && (forall i :: 0 <= i < |h| ==> 0 <= h[i].at)
    && forall i, j :: 0 <= i < j < |h| ==> h[i].at <= h[j].at
  }

  /** All tokens ever charged, as time. */
  function Spent(h: seq<Action>): Time {
    if h == [] then 0 else Spent(h[..|h| - 1]) + Size(h[|h| - 1]) * SECOND
  }

  /** In the window that starts with the i-th action and ends with the last, more
      was charged than the burst and the time between them allow. */
  predicate Exceeds(h: seq<Action>, i: nat)
    requires i < |h|
  {
    Spent(h) - Spent(h[..i]) > BURST + (h[|h| - 1].at - h[i].at)
  }

  /** Whether the last action went over the limit, told from the history alone. */
  ghost predicate OverLimit(h: seq<Action>) {
    h != [] && !h[|h| - 1].Knock? && exists i: nat | i < |h| :: Exceeds(h, i)
  }

  ghost predicate OverLimitAt(h: seq<Action>, i: nat)
    requires i < |h|
  {
    OverLimit(h[..i + 1])
  }

  function ZeroAfter(h: seq<Action>): Time { After(h).zeroTime }

  lemma ZeroStep(h: seq<Action>)
    requires h != []
    ensures var a, z := h[|h| - 1], ZeroAfter(h[..|h| - 1]);
            && Spent(h) == Spent(h[..|h| - 1]) + Size(a) * SECOND
            && ZeroAfter(h) == if a.Knock? then z else (if z < a.at - BURST then a.at - BURST else z) + Size(a) * SECOND
  {}

  /** The bucket remembers the dearest of all windows... */
  lemma {:induction false} ZeroTimeBound(h: seq<Action>, i: nat)
    requires Ordered(h) && i < |h| && Spent(h) > Spent(h[..i])
    ensures ZeroAfter(h) >= h[i].at - BURST + Spent(h) - Spent(h[..i])
  {
    hide ZeroAfter;
    hide Spent;
    var before := h[..|h| - 1];
    assert before[..i] == h[..i];
    ZeroStep(h);
    if i < |before| && Spent(before) > Spent(h[..i]) {
      ZeroTimeBound(before, i);
    }
  }

  /** ... and nothing else. */
  lemma {:induction false} ZeroTimeReached(h: seq<Action>) returns (i: nat)
    requires Ordered(h)
    ensures (ZeroAfter(h) == -BURST && Spent(h) == 0)
            || (i < |h| && ZeroAfter(h) == h[i].at - BURST + Spent(h) - Spent(h[..i]))
  {
    i := 0;
    if h != [] {
      var last := |h| - 1;
      i := ZeroTimeReached(h[..last]);
      ZeroStep(h);
      if !h[last].Knock? && (i >= last || ZeroAfter(h[..last]) <= h[last].at - BURST) {
        i := last;
      } else if i < last {
        assert h[..last][..i] == h[..i];
      }
    }
  }

  /** The bucket's verdict is a statement about the history: a charge goes over
      the limit exactly if some window that ends with it was overspent. */
  lemma VerdictIsWindowed(h: seq<Action>)
    requires Ordered(h) && h != [] && !h[|h| - 1].Knock?
    ensures var last := |h| - 1;
            OverLimit(h) <==> Available(After(h[..last]), h[last].at, Size(h[last])) < 0
  {
    hide Spent;
    var last := |h| - 1;
    var z := ZeroAfter(h);
    assert z == h[last].at - Available(After(h[..last]), h[last].at, Size(h[last]));
    if i: nat :| i < |h| && Exceeds(h, i) {
      ZeroTimeBound(h, i);
    }
    var i := ZeroTimeReached(h);
    if z > h[last].at {
      assert Exceeds(h, i);
    }
  }

  // ---- The budget ----

  /** Tokens charged from time `s` on. */
  function SpentSince(h: seq<Action>, s: Time): Time {
    if h == [] then 0
    else SpentSince(h[..|h| - 1], s) + if h[|h| - 1].at >= s then Size(h[|h| - 1]) * SECOND else 0
  }

  lemma {:induction false} SpentSinceSplits(h: seq<Action>, s: Time, i: nat)
    requires Ordered(h) && i <= |h|
    requires forall k :: 0 <= k < i ==> h[k].at < s
    requires forall k :: i <= k < |h| ==> h[k].at >= s
    ensures SpentSince(h, s) == Spent(h) - Spent(h[..i])
  {
    if i == |h| {
      assert h[..i] == h;
      NoneSince(h, s);
    } else {
      SpentSinceSplits(h[..|h| - 1], s, i);
      assert h[..|h| - 1][..i] == h[..i];
    }
  }

  lemma {:induction false} NoneSince(h: seq<Action>, s: Time)
    requires forall k :: 0 <= k < |h| ==> h[k].at < s
    ensures SpentSince(h, s) == 0
  {
    if h != [] {
      NoneSince(h[..|h| - 1], s);
    }
  }

  lemma {:induction false} FirstSince(h: seq<Action>, s: Time) returns (i: nat)
    requires Ordered(h)
    ensures i <= |h|
    ensures forall k :: 0 <= k < i ==> h[k].at < s
    ensures forall k :: i <= k < |h| ==> h[k].at >= s
  {
    if h == [] {
      i := 0;
    } else {
      i := FirstSince(h[..|h| - 1], s);
      if i == |h| - 1 && h[|h| - 1].at < s {
        i := |h|;
      }
      assert i < |h| - 1 ==> h[i].at >= s;
    }
  }

  /** Whenever a charge stays within the limit: from any earlier time on, no more
      than ten tokens and one per second were charged in all. */
  lemma BudgetBound(h: seq<Action>, s: Time)
    requires Ordered(h) && h != [] && !h[|h| - 1].Knock? && !OverLimit(h) && s <= h[|h| - 1].at
    ensures SpentSince(h, s) <= BURST + (h[|h| - 1].at - s)
  {
    var i := FirstSince(h, s);
    SpentSinceSplits(h, s, i);
    assert !Exceeds(h, i);
  }

  /** New connections from time `s` on that were charged and found no delay. */
  function Undelayed(h: seq<Action>, s: Time): nat {
    if h == [] then 0
    else Undelayed(h[..|h| - 1], s)
         + if h[|h| - 1].Accept? && h[|h| - 1].at >= s && After(h).delay == 0 then 1 else 0
  }

  lemma {:induction false} UndelayedArePaid(h: seq<Action>, s: Time)
    ensures Undelayed(h, s) * SECOND <= SpentSince(h, s)
  {
    if h != [] {
      UndelayedArePaid(h[..|h| - 1], s);
    }
  }

  /** Of one entry until it is deleted: in any window of T seconds, at most 10 + T
      new connections find no delay, however often the client goes over the limit
      in between. */
  lemma {:induction false} EntryAcceptRate(h: seq<Action>, s: Time, end: Time)
    requires Ordered(h) && s <= end && (forall k :: 0 <= k < |h| ==> h[k].at <= end)
    ensures Undelayed(h, s) * SECOND <= BURST + (end - s)
  {
    if h != [] {
      var last := |h| - 1;
      if h[last].Accept? && h[last].at >= s && After(h).delay == 0 {
        DelayRange(h[..last]);
        VerdictIsWindowed(h);
        BudgetBound(h, s);
        UndelayedArePaid(h, s);
      } else {
        EntryAcceptRate(h[..last], s, end);
      }
    }
  }

  // ---- The tarpit ----

  /** When the limit was last exceeded; long ago if never. */
  ghost function LastOver(h: seq<Action>): Time {
    if h == [] then -TARPIT_FOR
    else if OverLimit(h) then h[|h| - 1].at
    else LastOver(h[..|h| - 1])
  }

  lemma {:induction false} DelayRange(h: seq<Action>)
    ensures 0 <= After(h).delay <= MAX_DELAY && After(h).delay % DELAY_STEP == 0
  {
    if h != [] {
      DelayRange(h[..|h| - 1]);
    }
  }

  lemma {:induction false} TarpitState(h: seq<Action>, now: Time)
    requires Ordered(h) && (h != [] ==> h[|h| - 1].at <= now)
    ensures After(h).tarpitUntil == LastOver(h) + TARPIT_FOR
    ensures 0 <= now < After(h).tarpitUntil ==> After(h).delay > 0
    ensures h != [] && !h[|h| - 1].Knock? && h[|h| - 1].at == now && After(h).tarpitUntil <= now ==> After(h).delay == 0
  {
    if h != [] {
      TarpitState(h[..|h| - 1], h[|h| - 1].at);
      DelayRange(h[..|h| - 1]);
      if !h[|h| - 1].Knock? {
        VerdictIsWindowed(h);
      }
    }
  }

  /** After a charge, there is a delay exactly if the limit was last exceeded less
      than a minute ago; it is a multiple of 100 ms, and at most a minute. */
  lemma TarpitHistory(h: seq<Action>)
    requires Ordered(h) && h != [] && !h[|h| - 1].Knock?
    ensures After(h).delay > 0 <==> h[|h| - 1].at < LastOver(h) + TARPIT_FOR
    ensures 0 <= After(h).delay <= MAX_DELAY && After(h).delay % DELAY_STEP == 0
  {
    TarpitState(h, h[|h| - 1].at);
    DelayRange(h);
  }

  /** The delay, told from the history alone: each charge over the limit makes it
      100 ms longer, up to a minute; each charge within the limit, while the limit was
      last exceeded less than a minute ago, 100 ms shorter, down to 100 ms; any later
      one ends it. */
  ghost function DelayTold(h: seq<Action>): Time {
    if h == [] then 0
    else
      var before := DelayTold(h[..|h| - 1]);
      if h[|h| - 1].Knock? then before
      else if OverLimit(h) then Packets.Min(before + 100_000_000, 60_000_000_000)
      else if h[|h| - 1].at < LastOver(h) + 60_000_000_000 then
        (if before > 100_000_000 then before - 100_000_000 else before)
      else 0
  }

  lemma {:induction false} DelayHistory(h: seq<Action>)
    requires Ordered(h)
    ensures After(h).delay == DelayTold(h)
  {
    hide OverLimit;
    if h != [] {
      var before := h[..|h| - 1];
      DelayHistory(before);
      DelayRange(before);
      TarpitState(before, h[|h| - 1].at);
      if !h[|h| - 1].Knock? {
        VerdictIsWindowed(h);
      }
    }
  }

  /** n charges over the limit in a row delay by n times 100 ms, or a minute. */
  lemma {:induction false} ExcessesAddUp(h: seq<Action>, n: nat)
    requires n <= |h| && DelayTold(h[..|h| - n]) == 0
    requires forall k | |h| - n <= k < |h| :: !h[k].Knock? && OverLimitAt(h, k)
    ensures DelayTold(h) == Packets.Min(n * 100_000_000, 60_000_000_000)
  {
    hide OverLimit;
    if n == 0 {
      assert h[..|h|] == h;
    } else {
      var before := h[..|h| - 1];
      assert before[..|before| - (n - 1)] == h[..|h| - n];
      forall k | |before| - (n - 1) <= k < |before| ensures !before[k].Knock? && OverLimitAt(before, k) {
        assert before[..k + 1] == h[..k + 1];
      }
      ExcessesAddUp(before, n - 1);
      assert h[..|h| - 1 + 1] == h && OverLimitAt(h, |h| - 1);
    }
  }

  // ---- Knocking ----

  /** The i-th action is a knock that no later charge over the limit has undone. */
  ghost predicate Stands(h: seq<Action>, i: nat)
    requires i < |h|
  {
    h[i].Knock? && forall j | i < j < |h| :: !OverLimitAt(h, j)
  }

  ghost predicate KnockStands(h: seq<Action>) { exists i: nat | i < |h| :: Stands(h, i) }

  lemma StandsStep(h: seq<Action>, i: nat)
    requires i < |h| - 1
    ensures Stands(h, i) <==> Stands(h[..|h| - 1], i) && !OverLimit(h)
  {
    var last := |h| - 1;
    var before := h[..last];
    assert h[..last + 1] == h;
    forall j | i < j < last ensures OverLimitAt(before, j) <==> OverLimitAt(h, j) {
      assert before[..j + 1] == h[..j + 1];
    }
    assert OverLimitAt(h, last) <==> OverLimit(h);
  }

  lemma {:induction false} KnockedIff(h: seq<Action>)
    requires Ordered(h)
    ensures After(h).knocked <==> KnockStands(h)
  {
    hide OverLimit;
    if h != [] {
      var last := |h| - 1;
      KnockedIff(h[..last]);
      forall i: nat | i < last ensures Stands(h, i) <==> Stands(h[..last], i) && !OverLimit(h) {
        StandsStep(h, i);
      }
      if h[last].Knock? {
        assert Stands(h, last);
      } else {
        VerdictIsWindowed(h);
        if OverLimit(h) || !KnockStands(h[..last]) {
          assert !KnockStands(h);
        } else {
          var i: nat :| i < last && Stands(h[..last], i);
          assert Stands(h, i);
        }
      }
    }
  }

  // ---- Admission ----

  datatype Admission = MissingKnock | TooMany | Delayed(delay: Time) | Admitted

  /** Listener::OnAccept for an entry that was just charged one token; `max` is
      the connection cap, 0 for none. */
  function Admit(e: Entry, requireKnock: bool, max: nat, connections: nat): Admission {
    if requireKnock && !e.knocked then MissingKnock
    else if max != 0 && connections >= max then TooMany
    else if e.delay > 0 then Delayed(e.delay)
    else Admitted
  }

  /** What OnAccept decides, told from the client's history: where knocking is
      required, an accepted knock must still stand after this very charge; the cap
      comes next; and whoever passes both is delayed exactly if the limit was last
      exceeded less than a minute ago. */
  lemma AdmissionIff(h: seq<Action>, requireKnock: bool, max: nat, connections: nat)
    requires Ordered(h) && h != [] && h[|h| - 1].Accept?
    ensures var a := Admit(After(h), requireKnock, max, connections);
            && (a == MissingKnock <==> requireKnock && !KnockStands(h))
            && (a == TooMany <==> a != MissingKnock && 0 < max <= connections)
            && (a.Delayed? <==> a != MissingKnock && a != TooMany && h[|h| - 1].at < LastOver(h) + TARPIT_FOR)
            && (a.Delayed? ==> a.delay == DelayTold(h) && 100_000_000 <= a.delay <= 60_000_000_000)
  {
    DelayHistory(h);
    hide DelayTold;
    hide After;
    hide Ordered;
    hide LastOver;
    hide KnockStands;
    KnockedIff(h);
    TarpitHistory(h);
  }

  // ---- Forgetting a client ----

  /** Events of one client's life: what is charged or knocked, the TCP connections
      that count for it, and each firing of the cleanup timer. */
  datatype Event = Do(action: Action) | Connect(at: Time) | Disconnect(at: Time) | Cleanup(at: Time)

  /** A client's entry, its number of connections, and when it may be forgotten. */
  datatype Life = Life(entry: Entry, connections: nat, expires: Time)

  const UNKNOWN := Life(FRESH, 0, 0)

  function At(e: Event): Time { if e.Do? then e.action.at else e.at }

  predicate Evicts(l: Life, e: Event) { e.Cleanup? && l.connections == 0 && l.expires <= e.at }

  /** One event; `forget` says whether the cleanup deletes entries at all.  A
      deleted entry is made anew when the client is next seen. */
  function Lives(forget: bool, l: Life, e: Event): Life {
    match e
    case Do(a) => l.(entry := Act(l.entry, a))
    case Connect(_) => l.(connections := l.connections + 1)
    case Disconnect(now) =>
      if l.connections == 0 then l else l.(connections := l.connections - 1, expires := now + EXPIRY)
    case Cleanup(_) => if forget && Evicts(l, e) then UNKNOWN else l
  }

  function Lived(forget: bool, events: seq<Event>): Life {
    if events == [] then UNKNOWN
    else Lives(forget, Lived(forget, events[..|events| - 1]), events[|events| - 1])
  }

  /** What the present entry has seen: all actions since it was last deleted. */
  function Since(events: seq<Event>): seq<Action> {
    if events == [] then []
    else
      var before, e := events[..|events| - 1], events[|events| - 1];
      if Evicts(Lived(true, before), e) then []
      else if e.Do? then Since(before) + [e.action]
      else Since(before)
  }

  lemma NothingDone()
    ensures After([]) == FRESH && Ordered([])
  {}

  lemma ActsOn(h: seq<Action>, a: Action)
    ensures After(h + [a]) == Act(After(h), a)
    ensures Ordered(h) && 0 <= a.at && (forall i :: 0 <= i < |h| ==> h[i].at <= a.at) ==> Ordered(h + [a])
  {
    assert (h + [a])[..|h|] == h;
  }

  lemma {:induction false} SinceEviction(events: seq<Event>, now: Time)
    requires InOrder(events) && (events != [] ==> At(events[|events| - 1]) <= now)
    ensures Lived(true, events).entry == After(Since(events)) && Ordered(Since(events))
    ensures forall i :: 0 <= i < |Since(events)| ==> Since(events)[i].at <= now
  {
    hide Act;
    hide Ordered;
    hide After;
    if events == [] {
      NothingDone();
    } else {
      var before, e := events[..|events| - 1], events[|events| - 1];
      NothingDone();
      SinceEviction(before, At(e));
      if e.Do? {
        ActsOn(Since(before), e.action);
      }
    }
  }

  /** The decision on a new connection, for a client that may have been forgotten
      in between: only what happened since the last deletion matters, and that
      decides as AdmissionIff says. */
  lemma AdmissionTold(events: seq<Event>, requireKnock: bool, max: nat)
    requires InOrder(events) && events != [] && events[|events| - 1].Do? && events[|events| - 1].action.Accept?
    ensures var l, h := Lived(true, events), Since(events);
            var a := Admit(l.entry, requireKnock, max, l.connections);
            && Ordered(h) && h != [] && h[|h| - 1] == events[|events| - 1].action
            && (a == MissingKnock <==> requireKnock && !KnockStands(h))
            && (a == TooMany <==> a != MissingKnock && 0 < max <= l.connections)
            && (a.Delayed? <==> a != MissingKnock && a != TooMany && h[|h| - 1].at < LastOver(h) + TARPIT_FOR)
            && (a.Delayed? ==> a.delay == DelayTold(h))
  {
    SinceEviction(events, At(events[|events| - 1]));
    AdmissionIff(Since(events), requireKnock, max, Lived(true, events).connections);
  }

  predicate InOrder(events: seq<Event>) {
    && (forall i :: 0 <= i < |events| ==> 0 <= At(events[i]))
    && (forall i, j :: 0 <= i < j < |events| ==> At(events[i]) <= At(events[j]))
    && forall i :: 0 <= i < |events| && events[i].Do? ==> Size(events[i].action) <= MAX_CHARGE
  }

  // ---- The rate of admissions, deletions or not ----

  /** The last two events are an undelayed new connection: charged, and let in. */
  predicate Passes(events: seq<Event>) {
    && |events| >= 2 && events[|events| - 1].Connect?
    && events[|events| - 2] == Do(Accept(events[|events| - 1].at))
    && Lived(true, events[..|events| - 1]).entry.delay == 0
  }

  predicate PassesSince(events: seq<Event>, s: Time) { Passes(events) && At(events[|events| - 1]) >= s }

  /** How many there were from time `s` on, and when the last was. */
  function Passed(events: seq<Event>, s: Time): nat {
    if events == [] then 0 else Passed(events[..|events| - 1], s) + if PassesSince(events, s) then 1 else 0
  }

  function LastPassed(events: seq<Event>, s: Time): Time {
    if events == [] then s
    else if PassesSince(events, s) then At(events[|events| - 1])
    else LastPassed(events[..|events| - 1], s)
  }

  /** With `passed` tokens paid by admissions since `s`, the last of them at `last`:
      they were within the budget then; the entry still remembers them, or they are
      too long ago to matter; and while they matter, the entry stays. */
  predicate Remembered(l: Life, passed: Time, last: Time, s: Time, now: Time) {
    && l.entry.delay >= 0
    && (passed > 0 ==>
         && s <= last <= now && passed <= BURST + (last - s)
         && (passed <= l.entry.zeroTime - s + BURST || last + BURST <= now)
         && (l.connections > 0 || l.expires >= last + EXPIRY || last + BURST <= now))
  }

  lemma StillRemembered(l: Life, e: Event, passed: Time, last: Time, s: Time)
    requires Remembered(l, passed, last, s, At(e))
    ensures Remembered(Lives(true, l, e), passed, last, s, At(e))
  {}

  lemma PassRemembered(l: Life, now: Time, passed: Time, last: Time, s: Time)
    requires Remembered(l, passed, last, s, now) && 0 <= passed && s <= now
    requires Act(l.entry, Accept(now)).delay == 0
    ensures var l' := Lives(true, Lives(true, l, Do(Accept(now))), Connect(now));
            Remembered(l', passed + SECOND, now, s, now)
  {}

  lemma {:induction false} PassedRemembered(events: seq<Event>, s: Time, now: Time)
    requires InOrder(events) && (events != [] ==> At(events[|events| - 1]) <= now)
    ensures Remembered(Lived(true, events), Passed(events, s) * SECOND, LastPassed(events, s), s, now)
  {
    hide Lives;
    hide InOrder;
    if events != [] {
      var last := |events| - 1;
      var before, e := events[..last], events[last];
      OrderedBefore(events);
      if PassesSince(events, s) {
        var earlier := events[..last - 1];
        assert before[..last - 1] == earlier && before[last - 1] == Do(Accept(e.at));
        OrderedBefore(before);
        PassedRemembered(earlier, s, e.at);
        AcceptLives(Lived(true, earlier), e.at);
        PassRemembered(Lived(true, earlier), e.at, Passed(earlier, s) * SECOND, LastPassed(earlier, s), s);
      } else {
        PassedRemembered(before, s, At(e));
        StillRemembered(Lived(true, before), e, Passed(events, s) * SECOND, LastPassed(events, s), s);
      }
    }
  }

  lemma AcceptLives(l: Life, now: Time)
    ensures Lives(true, l, Do(Accept(now))).entry == Act(l.entry, Accept(now))
  {}

  lemma OrderedBefore(events: seq<Event>)
    requires InOrder(events) && events != []
    ensures InOrder(events[..|events| - 1])
    ensures |events| > 1 ==> At(events[|events| - 2]) <= At(events[|events| - 1])
  {}

  /** In any window of T seconds, at most 10 + T new connections of one client are
      let in undelayed, whatever else happens, even if the client is forgotten in
      between: for a connection that was let in, that takes five minutes. */
  lemma AcceptRate(events: seq<Event>, s: Time, end: Time)
    requires InOrder(events) && s <= end && (forall k :: 0 <= k < |events| ==> At(events[k]) <= end)
    ensures Passed(events, s) * 1_000_000_000 <= 10_000_000_000 + (end - s)
  {
    PassedRemembered(events, s, end);
  }

  function Accepts(n: nat, now: Time): seq<Event> { seq(n, _ => Do(Accept(now))) }

  /** Not so for connections that are refused after the charge: an entry without
      connections may go at any time, and twenty at one instant find no delay. */
  lemma ForgottenAccepts(now: Time)
    requires 0 <= now
    ensures var events := Accepts(10, now) + [Cleanup(now)] + Accepts(10, now);
            && InOrder(events)
            && forall k | 0 <= k < |events| && events[k].Do? :: Lived(true, events[..k + 1]).entry.delay == 0
  {
    hide Lived;
    var events := Accepts(10, now) + [Cleanup(now)] + Accepts(10, now);
    forall k | 0 <= k < |events| && events[k].Do? ensures Lived(true, events[..k + 1]).entry.delay == 0 {
      ForgottenAccept(now, k);
    }
  }

  lemma ForgottenAccept(now: Time, k: nat)
    requires 0 <= now && k < 21 && k != 10
    ensures Lived(true, (Accepts(10, now) + [Cleanup(now)] + Accepts(10, now))[..k + 1]).entry.delay == 0
  {
    hide Act;
    var first, second := Accepts(10, now), Accepts(10, now) + [Cleanup(now)];
    var events := second + Accepts(10, now);
    if k < 10 {
      AcceptsLived([], k + 1, now);
      assert events[..k + 1] == [] + Accepts(k + 1, now);
    } else {
      AcceptsLived([], 10, now);
      assert [] + first == first && second[..10] == first;
      assert Lived(true, second) == Lives(true, Lived(true, first), Cleanup(now));
      AcceptsLived(second, k - 10, now);
      assert events[..k + 1] == second + Accepts(k - 10, now);
    }
  }

  lemma {:induction false} AcceptsLived(before: seq<Event>, n: nat, now: Time)
    requires Lived(true, before) == UNKNOWN && n <= 10 && 0 <= now
    ensures Lived(true, before + Accepts(n, now)) ==
            if n == 0 then UNKNOWN else Life(Entry(now - BURST + n * SECOND, 0, 0, false), 0, 0)
  {
    if n == 0 {
      assert before + Accepts(0, now) == before;
    } else {
      var events := before + Accepts(n, now);
      assert events[..|events| - 1] == before + Accepts(n - 1, now);
      AcceptsLived(before, n - 1, now);
    }
  }

  /** n clients let in at one instant. */
  function Admissions(n: nat, now: Time): seq<Event> {
    if n == 0 then [] else Admissions(n - 1, now) + [Do(Accept(now)), Connect(now)]
  }

  /** The bound is reached: ten at one instant. */
  lemma {:induction false} BoundReached(n: nat, now: Time)
    requires n <= 10 && 0 <= now
    ensures Passed(Admissions(n, now), now) == n
    ensures Lived(true, Admissions(n, now)) ==
            Life(if n == 0 then FRESH else Entry(now - BURST + n * SECOND, 0, 0, false), n, 0)
  {
    if n > 0 {
      BoundReached(n - 1, now);
      var before, events := Admissions(n - 1, now), Admissions(n, now);
      var between := before + [Do(Accept(now))];
      assert events == between + [Connect(now)];
      assert events[..|events| - 1] == between && between[..|between| - 1] == before;
    }
  }

  /** The numbers: of n new connections at one instant, ten find no delay, and each
      further one waits 100 ms longer, up to a minute. */
  lemma {:induction false} AtOnce(n: nat, now: Time)
    requires 0 <= now
    ensures Lived(true, Accepts(n, now)).entry.delay ==
            if n <= 10 then 0 else Packets.Min((n - 10) * 100_000_000, 60_000_000_000)
    ensures n > 0 ==> Lived(true, Accepts(n, now)).entry.zeroTime == now + (n - 10) * 1_000_000_000
    ensures n > 10 ==> Lived(true, Accepts(n, now)).entry.tarpitUntil == now + 60_000_000_000
    ensures n <= 10 ==> Lived(true, Accepts(n, now)).entry.tarpitUntil == 0
    ensures Lived(true, Accepts(0, now)).entry == FRESH
  {
    if n > 0 {
      AtOnce(n - 1, now);
      var events := Accepts(n, now);
      assert events[..|events| - 1] == Accepts(n - 1, now) && events[|events| - 1] == Do(Accept(now));
    }
  }

  /** After ten at one instant, the next finds no delay if and only if a second has
      passed. */
  lemma OneEachSecond(now: Time, later: Time)
    requires 0 <= now <= later
    ensures Lived(true, Accepts(10, now) + [Do(Accept(later))]).entry.delay == 0 <==> later - now >= 1_000_000_000
  {
    AtOnce(10, now);
    var events := Accepts(10, now) + [Do(Accept(later))];
    assert events[..|events| - 1] == Accepts(10, now);
  }

  // ---- When forgetting is harmless ----

  /** An entry that no longer differs from a new one. */
  predicate Harmless(e: Entry, now: Time) {
    !e.knocked && e.zeroTime <= now - BURST && (e.delay == 0 || e.tarpitUntil <= now)
  }

  /** From `now` on, the two entries cannot be told apart. */
  predicate Alike(a: Entry, b: Entry, now: Time) {
    && a.knocked == b.knocked
    && (a.zeroTime == b.zeroTime || (a.zeroTime <= now - BURST && b.zeroTime <= now - BURST))
    && (|| (a.delay == b.delay && (a.tarpitUntil == b.tarpitUntil || a.delay == 0))
        || (&& a.zeroTime <= now - BURST && b.zeroTime <= now - BURST
            && (a.delay == 0 || a.tarpitUntil <= now) && (b.delay == 0 || b.tarpitUntil <= now)))
  }

  /** Alike entries give the same verdicts and stay alike. */
  lemma AlikeAct(a: Entry, b: Entry, x: Action, now: Time)
    requires Alike(a, b, now) && now <= x.at && Size(x) <= MAX_CHARGE && a.delay >= 0 && b.delay >= 0
    ensures Alike(Act(a, x), Act(b, x), x.at)
    ensures !x.Knock? ==> && (Available(a, x.at, Size(x)) < 0 <==> Available(b, x.at, Size(x)) < 0)
                          && Act(a, x).delay == Act(b, x).delay && Act(a, x).knocked == Act(b, x).knocked
    ensures Act(a, x).delay >= 0 && Act(b, x).delay >= 0
  {}

  /** Deleting an entry can never be noticed if, and only if, it is harmless. */
  lemma HarmlessIff(e: Entry, now: Time)
    requires 0 <= now && 0 <= e.delay
    ensures Harmless(e, now) <==> forall h | Follows(h, now) :: SameVerdict(e, h)
  {
    if Harmless(e, now) {
      forall h | Follows(h, now) ensures SameVerdict(e, h) {
        HarmlessVerdict(e, now, h);
      }
    } else {
      var x := Charge(now, if e.zeroTime <= now - BURST then 1 else MAX_CHARGE);
      assert From(e, [x]) == Act(e, x) && From(FRESH, [x]) == Act(FRESH, x) by {
        assert [x][..0] == [];
      }
      assert Follows([x], now) && !SameVerdict(e, [x]);
    }
  }

  /** A possible continuation from `now` that ends with a charge. */
  predicate Follows(h: seq<Action>, now: Time) {
    && Ordered(h) && h != [] && !h[|h| - 1].Knock? && now <= h[0].at
    && forall i :: 0 <= i < |h| ==> Size(h[i]) <= MAX_CHARGE
  }

  /** All that can be seen of an entry after a charge: its delay and whether it has
      knocked. */
  predicate SameVerdict(e: Entry, h: seq<Action>) {
    From(e, h).delay == From(FRESH, h).delay && From(e, h).knocked == From(FRESH, h).knocked
  }

  lemma {:induction false} HarmlessVerdict(e: Entry, now: Time, h: seq<Action>)
    requires 0 <= now && 0 <= e.delay && Harmless(e, now) && Follows(h, now)
    ensures SameVerdict(e, h)
  {
    HarmlessAlike(e, now, h[..|h| - 1]);
    AlikeAct(From(e, h[..|h| - 1]), From(FRESH, h[..|h| - 1]), h[|h| - 1], if |h| == 1 then now else h[|h| - 2].at);
  }

  lemma {:induction false} HarmlessAlike(e: Entry, now: Time, h: seq<Action>)
    requires 0 <= now && 0 <= e.delay && Harmless(e, now) && Ordered(h) && (h != [] ==> now <= h[0].at)
    requires forall i :: 0 <= i < |h| ==> Size(h[i]) <= MAX_CHARGE
    ensures Alike(From(e, h), From(FRESH, h), if h == [] then now else h[|h| - 1].at)
    ensures From(e, h).delay >= 0 && From(FRESH, h).delay >= 0
  {
    if h != [] {
      var before := h[..|h| - 1];
      HarmlessAlike(e, now, before);
      AlikeAct(From(e, before), From(FRESH, before), h[|h| - 1], if before == [] then now else before[|before| - 1].at);
    }
  }

  /** Every entry that the cleanup deletes is harmless when it does. */
  ghost predicate EvictsHarmless(events: seq<Event>) {
    forall k | 0 <= k < |events| :: EvictionHarmless(events, k)
  }

  predicate EvictionHarmless(events: seq<Event>, k: nat)
    requires k < |events|
  {
    Evicts(Lived(true, events[..k]), events[k]) ==> Harmless(Lived(true, events[..k]).entry, At(events[k]))
  }

  /** Then forgetting refines never forgetting: after every charge, the delay, the
      knock and the number of connections are what they would be without it. */
  lemma EvictionUnobservable(events: seq<Event>)
    requires InOrder(events) && EvictsHarmless(events)
    requires events != [] && events[|events| - 1].Do? && !events[|events| - 1].action.Knock?
    ensures var f, k := Lived(true, events), Lived(false, events);
            && f.entry.delay == k.entry.delay && f.entry.knocked == k.entry.knocked && f.connections == k.connections
            && forall requireKnock, max ::
                 Admit(f.entry, requireKnock, max, f.connections) == Admit(k.entry, requireKnock, max, k.connections)
  {
    var before := events[..|events| - 1];
    EvictsHarmlessBefore(events);
    ForgettingAlike(before, At(events[|events| - 1]));
    AlikeAct(Lived(true, before).entry, Lived(false, before).entry, events[|events| - 1].action,
        At(events[|events| - 1]));
  }

  /** One event keeps the two lives alike. */
  lemma LivesAlike(f: Life, k: Life, e: Event)
    requires Alike(f.entry, k.entry, At(e)) && f.connections == k.connections
    requires f.entry.delay >= 0 && k.entry.delay >= 0 && 0 <= At(e) && (e.Do? ==> Size(e.action) <= MAX_CHARGE)
    requires Evicts(f, e) ==> Harmless(f.entry, At(e))
    ensures var f', k' := Lives(true, f, e), Lives(false, k, e);
            && Alike(f'.entry, k'.entry, At(e)) && f'.connections == k'.connections
            && f'.entry.delay >= 0 && k'.entry.delay >= 0
  {
    hide Act;
    if e.Do? {
      AlikeAct(f.entry, k.entry, e.action, At(e));
    }
  }

  lemma {:induction false} ForgettingAlike(events: seq<Event>, now: Time)
    requires InOrder(events) && EvictsHarmless(events) && 0 <= now && (events != [] ==> At(events[|events| - 1]) <= now)
    ensures var f, k := Lived(true, events), Lived(false, events);
            && Alike(f.entry, k.entry, now) && f.connections == k.connections
            && f.entry.delay >= 0 && k.entry.delay >= 0
  {
    hide Alike;
    hide Lives;
    hide Evicts;
    hide Harmless;
    if events == [] {
      FreshAlike(now);
    } else {
      var last := |events| - 1;
      var before, e := events[..last], events[last];
      EvictsHarmlessBefore(events);
      ForgettingAlike(before, At(e));
      assert EvictionHarmless(events, last);
      LivesAlike(Lived(true, before), Lived(false, before), e);
      AlikeLater(Lived(true, events).entry, Lived(false, events).entry, At(e), now);
    }
  }

  lemma FreshAlike(now: Time)
    ensures Alike(FRESH, FRESH, now)
  {}

  lemma EvictsHarmlessBefore(events: seq<Event>)
    requires events != [] && EvictsHarmless(events)
    ensures EvictsHarmless(events[..|events| - 1])
  {
    var before := events[..|events| - 1];
    forall k | 0 <= k < |before| ensures EvictionHarmless(before, k) {
      assert before[..k] == events[..k];
      assert EvictionHarmless(events, k);
    }
  }

  lemma AlikeLater(a: Entry, b: Entry, now: Time, later: Time)
    requires Alike(a, b, now) && now <= later
    ensures Alike(a, b, later)
  {}

  // ---- When the five minutes are enough ----

  /** Since the client's last disconnect, only the cleanup timer has fired. */
  predicate QuietSince(events: seq<Event>, k: nat)
    requires k < |events|
  {
    events[k].Disconnect? && forall j | k < j < |events| :: events[j].Cleanup?
  }

  lemma {:induction false} TarpitEnds(events: seq<Event>)
    requires InOrder(events)
    ensures var l := Lived(true, events);
            l.entry.tarpitUntil <= if events == [] then TARPIT_FOR else At(events[|events| - 1]) + TARPIT_FOR
  {
    if events != [] {
      TarpitEnds(events[..|events| - 1]);
    }
  }

  /** A quiet client, and its entry at the last disconnect: when the five minutes
      are over, the entry is harmless if and only if its bucket lacked at most 290
      tokens then, and no knock stood. */
  lemma QuietHarmlessIff(events: seq<Event>, k: nat)
    requires InOrder(events) && k < |events| && QuietSince(events, k) && Lived(true, events).connections == 0
    requires Lived(true, events).expires == At(events[k]) + EXPIRY
    ensures var e, now := Lived(true, events[..k]).entry, At(events[k]) + EXPIRY;
            && Lived(true, events).entry == e
            && (Harmless(e, now) <==> !e.knocked && e.zeroTime - At(events[k]) <= 290 * SECOND)
  {
    TarpitEnds(events[..k]);
    QuietKeeps(events, k);
  }

  lemma {:induction false} QuietKeeps(events: seq<Event>, k: nat)
    requires InOrder(events) && k < |events| && QuietSince(events, k)
    ensures Lived(true, events) == UNKNOWN || Lived(true, events) == Lived(true, events[..k + 1])
    ensures Lived(true, events[..k + 1]).entry == Lived(true, events[..k]).entry
  {
    assert events[..k + 1][..k] == events[..k];
    if k == |events| - 1 {
      assert events[..k + 1] == events;
    } else {
      var before := events[..|events| - 1];
      QuietKeeps(before, k);
      assert before[..k + 1] == events[..k + 1] && before[..k] == events[..k];
    }
  }

  /** Since then, the client has had no connection, whatever else it did. */
  predicate AwaySince(events: seq<Event>, k: nat)
    requires k < |events|
  {
    events[k].Disconnect? && forall j | k < j < |events| :: !events[j].Connect? && !events[j].Disconnect?
  }

  /** The timer has fired five minutes or more after events[k]. */
  predicate FiredAfter(events: seq<Event>, k: nat)
    requires k < |events|
  {
    exists j | k < j < |events| :: events[j].Cleanup? && At(events[j]) >= At(events[k]) + 300_000_000_000
  }

  /** All charges and knocks. */
  function Actions(events: seq<Event>): seq<Action> {
    if events == [] then []
    else Actions(events[..|events| - 1]) + if events[|events| - 1].Do? then [events[|events| - 1].action] else []
  }

  /** What is left of a client whose last connection ended at `at`. */
  predicate Remaining(l: Life, fired: bool, at: Time, e: Entry) {
    l.connections == 0 && l.expires == (if fired then 0 else at + EXPIRY) && (!fired ==> l.entry == e)
  }

  lemma RemainingLives(l: Life, fired: bool, at: Time, entry: Entry, e: Event)
    requires Remaining(l, fired, at, entry) && !e.Connect? && !e.Disconnect? && 0 <= At(e)
    ensures Remaining(Lives(true, l, e), fired || (e.Cleanup? && At(e) >= at + EXPIRY), at,
                      if e.Do? then Act(entry, e.action) else entry)
  {
    hide Act;
  }

  /** The entry that was left, with everything charged and knocked since. */
  function Carried(events: seq<Event>, k: nat): Entry
    requires k < |events|
  {
    From(Lived(true, events[..k]).entry, Actions(events[k + 1..]))
  }

  lemma CarriedStep(events: seq<Event>, k: nat)
    requires k < |events| - 1
    ensures var e := events[|events| - 1];
            var before := Carried(events[..|events| - 1], k);
            Carried(events, k) == if e.Do? then Act(before, e.action) else before
  {
    hide Act;
    hide Lived;
    var last := |events| - 1;
    var before, rest := events[..last], events[k + 1..];
    assert before[..k] == events[..k];
    assert rest[..|rest| - 1] == before[k + 1..] && rest[|rest| - 1] == events[last];
    ActionsStep(rest);
    FromStep(Lived(true, events[..k]).entry, before[k + 1..], events[last]);
  }

  lemma {:induction false} AwayState(events: seq<Event>, k: nat)
    requires InOrder(events) && k < |events| && AwaySince(events, k) && Lived(true, events[..k]).connections == 1
    ensures Remaining(Lived(true, events), FiredAfter(events, k), At(events[k]), Carried(events, k))
  {
    hide Lives;
    hide FiredAfter;
    hide Remaining;
    if k == |events| - 1 {
      LeftAlone(events);
    } else {
      hide Carried;
      var before, e := events[..|events| - 1], events[|events| - 1];
      assert before[..k] == events[..k];
      AwayState(before, k);
      FiredStep(events, k);
      CarriedStep(events, k);
      RemainingLives(Lived(true, before), FiredAfter(before, k), At(events[k]), Carried(before, k), e);
    }
  }

  lemma LeftAlone(events: seq<Event>)
    requires events != [] && events[|events| - 1].Disconnect? && Lived(true, events[..|events| - 1]).connections == 1
    ensures var k := |events| - 1;
            Remaining(Lived(true, events), FiredAfter(events, k), At(events[k]), Carried(events, k))
  {
    hide Lives;
    LastLeaves(Lived(true, events[..|events| - 1]), events[|events| - 1]);
    assert events[|events|..] == [];
  }

  lemma LastLeaves(l: Life, e: Event)
    requires l.connections == 1 && e.Disconnect?
    ensures Lives(true, l, e) == Life(l.entry, 0, At(e) + EXPIRY)
  {}

  lemma ActionsStep(events: seq<Event>)
    requires events != []
    ensures Actions(events) ==
            Actions(events[..|events| - 1]) + if events[|events| - 1].Do? then [events[|events| - 1].action] else []
  {}

  lemma FromStep(entry: Entry, before: seq<Event>, e: Event)
    ensures From(entry, Actions(before) + if e.Do? then [e.action] else []) ==
            if e.Do? then Act(From(entry, Actions(before)), e.action) else From(entry, Actions(before))
  {
    hide Act;
    if e.Do? {
      FromOn(entry, Actions(before), e.action);
    } else {
      assert Actions(before) + [] == Actions(before);
    }
  }

  /** How long a client without connections is remembered, on every history: until
      the first firing of the timer five minutes after its last disconnect, whatever
      it is charged and however it knocks in between; from then on, any firing
      deletes its entry. */
  lemma ForgottenIff(events: seq<Event>, k: nat)
    requires InOrder(events) && k < |events| && AwaySince(events, k) && Lived(true, events[..k]).connections == 1
    ensures var l := Lived(true, events);
            && l.connections == 0
            && l.expires == (if FiredAfter(events, k) then 0 else At(events[k]) + 300_000_000_000)
            && (!FiredAfter(events, k) ==> l.entry == Carried(events, k))
    ensures forall e: Event | 0 <= At(e) :: Evicts(Lived(true, events), e) <==>
              e.Cleanup? && (FiredAfter(events, k) || At(e) >= At(events[k]) + 300_000_000_000)
  {
    hide Lived;
    hide Carried;
    hide FiredAfter;
    AwayState(events, k);
  }

  lemma FiredStep(events: seq<Event>, k: nat)
    requires k < |events| - 1
    ensures FiredAfter(events, k) <==>
            FiredAfter(events[..|events| - 1], k)
            || (events[|events| - 1].Cleanup? && At(events[|events| - 1]) >= At(events[k]) + EXPIRY)
  {
    var before := events[..|events| - 1];
    if j :| k < j < |before| && before[j].Cleanup? && At(before[j]) >= At(before[k]) + EXPIRY {
      assert events[j].Cleanup? && At(events[j]) >= At(events[k]) + EXPIRY;
    }
    if j :| k < j < |events| && events[j].Cleanup? && At(events[j]) >= At(events[k]) + EXPIRY {
      assert j < |before| ==> before[j].Cleanup?;
    }
  }

  lemma FromOn(e: Entry, h: seq<Action>, a: Action)
    ensures From(e, h + [a]) == Act(From(e, h), a)
  {
    assert (h + [a])[..|h|] == h;
  }

  /** For a quiet client, that deletion leaves nothing at all. */
  lemma {:induction false} QuietForgottenIff(events: seq<Event>, k: nat)
    requires InOrder(events) && k < |events| && QuietSince(events, k) && Lived(true, events[..k]).connections == 1
    ensures Lived(true, events) ==
      if exists j | k < j < |events| :: At(events[j]) >= At(events[k]) + EXPIRY then UNKNOWN
      else Lived(true, events[..k + 1])
  {
    var before := events[..|events| - 1];
    assert events[..k + 1][..k] == events[..k];
    assert Lived(true, events[..k + 1]) == Lives(true, Lived(true, events[..k]), events[k]);
    if k == |events| - 1 {
      assert events[..k + 1] == events;
    } else {
      assert before[..k + 1] == events[..k + 1] && before[..k] == events[..k];
      QuietForgottenIff(before, k);
      if j :| k < j < |before| && At(before[j]) >= At(before[k]) + EXPIRY {
        assert At(events[j]) >= At(events[k]) + EXPIRY;
      }
    }
  }

  // ---- The rate where nothing is forgotten that matters ----

  /** New connections from time `s` on that found no delay, let in or not. */
  function UndelayedAccepts(forget: bool, events: seq<Event>, s: Time): nat {
    if events == [] then 0
    else
      var e := events[|events| - 1];
      UndelayedAccepts(forget, events[..|events| - 1], s)
      + if e.Do? && e.action.Accept? && At(e) >= s && Lived(forget, events).entry.delay == 0 then 1 else 0
  }

  lemma {:induction false} NeverForgotten(events: seq<Event>)
    ensures Lived(false, events).entry == After(Actions(events))
  {
    hide Act;
    if events != [] {
      var before, e := events[..|events| - 1], events[|events| - 1];
      NeverForgotten(before);
      ActionsStep(events);
      FromStep(FRESH, before, e);
    }
  }

  lemma UndelayedOn(h: seq<Action>, a: Action, s: Time)
    ensures Undelayed(h + [a], s) ==
            Undelayed(h, s) + if a.Accept? && a.at >= s && After(h + [a]).delay == 0 then 1 else 0
  {
    assert (h + [a])[..|h|] == h;
  }

  lemma {:induction false} NeverForgottenCount(events: seq<Event>, s: Time)
    ensures UndelayedAccepts(false, events, s) == Undelayed(Actions(events), s)
  {
    hide Lived;
    hide After;
    hide Undelayed;
    hide Actions;
    if events == [] {
      NoActions(s);
    } else {
      var before, e := events[..|events| - 1], events[|events| - 1];
      NeverForgottenCount(before, s);
      NeverForgotten(events);
      ActionsStep(events);
      if e.Do? {
        UndelayedOn(Actions(before), e.action, s);
      } else {
        assert Actions(before) + [] == Actions(before);
      }
    }
  }

  lemma NoActions(s: Time)
    ensures Actions([]) == [] && Undelayed([], s) == 0
  {}

  lemma {:induction false} ActionsOrdered(events: seq<Event>, end: Time)
    requires InOrder(events) && forall k :: 0 <= k < |events| ==> At(events[k]) <= end
    ensures Ordered(Actions(events)) && forall k :: 0 <= k < |Actions(events)| ==> Actions(events)[k].at <= end
  {
    hide Ordered;
    if events == [] {
      NothingDone();
    } else {
      var before, e := events[..|events| - 1], events[|events| - 1];
      ActionsOrdered(before, At(e));
      if e.Do? {
        ActsOn(Actions(before), e.action);
      } else {
        assert Actions(before) + [] == Actions(before);
      }
    }
  }

  lemma {:induction false} SameDelays(events: seq<Event>, s: Time)
    requires InOrder(events) && EvictsHarmless(events)
    ensures UndelayedAccepts(true, events, s) == UndelayedAccepts(false, events, s)
  {
    hide Lived;
    hide Admit;
    if events != [] {
      EvictsHarmlessBefore(events);
      OrderedBefore(events);
      SameDelays(events[..|events| - 1], s);
      if events[|events| - 1].Do? && events[|events| - 1].action.Accept? {
        EvictionUnobservable(events);
      }
    }
  }

  /** If every deletion was harmless, the rate holds for all new connections, let in
      or refused.  (A deletion that is not harmless shows in some continuation, by
      HarmlessIff, but not in every rate.) */
  lemma HarmlessAcceptRate(events: seq<Event>, s: Time, end: Time)
    requires InOrder(events) && EvictsHarmless(events)
    requires s <= end && forall k :: 0 <= k < |events| ==> At(events[k]) <= end
    ensures UndelayedAccepts(true, events, s) * SECOND <= BURST + (end - s)
  {
    SameDelays(events, s);
    NeverForgottenCount(events, s);
    ActionsOrdered(events, end);
    EntryAcceptRate(Actions(events), s, end);
  }

  // ---- Deletions after quiet times ----

  /** The deletion at events[j] follows such a quiet time after a real disconnect. */
  ghost predicate EvictionQuiet(events: seq<Event>, j: nat)
    requires j < |events|
  {
    Evicts(Lived(true, events[..j]), events[j]) ==>
      exists k: nat | k < j :: QuietSince(events[..j], k) && LeavesQuietly(Lived(true, events[..k]), At(events[k]))
  }

  predicate LeavesQuietly(l: Life, now: Time) {
    l.connections > 0 && !l.entry.knocked && l.entry.zeroTime - now <= 290 * SECOND
  }

  /** So five minutes of quiet make every deletion harmless, at most 290 tokens
      short, and then nobody can notice that the client was forgotten. */
  lemma QuietEvictions(events: seq<Event>)
    requires InOrder(events) && forall j | 0 <= j < |events| :: EvictionQuiet(events, j)
    ensures EvictsHarmless(events)
  {
    hide EvictionHarmless;
    forall j | 0 <= j < |events| ensures EvictionHarmless(events, j) {
      assert EvictionQuiet(events, j);
      QuietEviction(events, j);
    }
  }

  lemma QuietEviction(events: seq<Event>, j: nat)
    requires InOrder(events) && j < |events| && EvictionQuiet(events, j)
    ensures EvictionHarmless(events, j)
  {
    hide QuietSince;
    hide LeavesQuietly;
    if Evicts(Lived(true, events[..j]), events[j]) {
      var k: nat :| k < j && QuietSince(events[..j], k) && LeavesQuietly(Lived(true, events[..k]), At(events[k]));
      assert events[..j][..k] == events[..k];
      QuietHarmless(events[..j], k, events[j]);
    }
  }

  lemma QuietHarmless(events: seq<Event>, k: nat, e: Event)
    requires InOrder(events) && k < |events| && QuietSince(events, k)
             && LeavesQuietly(Lived(true, events[..k]), At(events[k]))
    requires Evicts(Lived(true, events), e) && 0 <= At(e)
    ensures Harmless(Lived(true, events).entry, At(e))
  {
    TarpitEnds(events[..k]);
    QuietKeeps(events, k);
    assert events[..k + 1][..k] == events[..k];
    assert Lived(true, events[..k + 1]) == Lives(true, Lived(true, events[..k]), events[k]);
  }

  /** Without a connection, the cleanup is noticed: a knock is forgotten before the
      client could connect. */
  lemma ForgottenKnock()
    ensures var events := [Do(Knock(SECOND)), Cleanup(2 * SECOND), Do(Accept(3 * SECOND))];
            && InOrder(events)
            && Admit(Lived(true, events).entry, true, 0, 0) == MissingKnock
            && Admit(Lived(false, events).entry, true, 0, 0) == Admitted
  {
    var events := [Do(Knock(SECOND)), Cleanup(2 * SECOND), Do(Accept(3 * SECOND))];
    ThreeSteps(true, events);
    ThreeSteps(false, events);
  }

  /** So is a charge after the last disconnect: it is forgiven. */
  lemma ForgivenCharge()
    ensures var events := [Connect(0), Disconnect(0), Do(Charge(299 * SECOND, 10)), Cleanup(EXPIRY),
            Do(Charge(EXPIRY, 10))];
            && InOrder(events)
            && Lived(true, events).entry.delay == 0 && Lived(false, events).entry.delay == DELAY_STEP
  {
    var events := [Connect(0), Disconnect(0), Do(Charge(299 * SECOND, 10)), Cleanup(EXPIRY), Do(Charge(EXPIRY, 10))];
    ThreeSteps(true, events[..3]);
    ThreeSteps(false, events[..3]);
    assert events[..3][..3] == events[..3] && events[..4][..3] == events[..3] && events[..5][..4] == events[..4]
        && events[..5] == events;
    assert forall forget ::
      Lived(forget, events) == Lives(forget, Lives(forget, Lived(forget, events[..3]), events[3]), events[4]);
  }

  lemma ThreeSteps(forget: bool, events: seq<Event>)
    requires |events| == 3
    ensures Lived(forget, events) == Lives(forget, Lives(forget, Lives(forget, UNKNOWN, events[0]), events[1]),
            events[2])
  {
    assert events[..2][..1] == events[..1] && events[..1][..0] == [];
    assert Lived(forget, events[..1]) == Lives(forget, UNKNOWN, events[0]);
    assert Lived(forget, events[..2]) == Lives(forget, Lived(forget, events[..1]), events[1]);
  }
}
