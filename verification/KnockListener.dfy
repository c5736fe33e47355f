// UDP knocking (src/KnockListener.cxx).
module Knocking {
  import opened Packets
  import Limiter
  import ProxySpec
  import CredentialJobs
  import UserDatabase
  import Wire
  import opened ClientAccounting

  const DATAGRAM_SIZE: nat := 62

  /** A datagram that is one complete ACCOUNT_LOGIN packet. */
  predicate WellFormedKnock(payload: Bytes) { |payload| == DATAGRAM_SIZE && payload[0] == ACCOUNT_LOGIN }

  function KnockUsername(payload: Bytes): Bytes
    requires WellFormedKnock(payload)
  {
    CString(payload[1..31])
  }

  function KnockPassword(payload: Bytes): Bytes
    requires WellFormedKnock(payload)
  {
    CString(payload[31..61])
  }

  function KnockCredentials(payload: Bytes): ProxySpec.Credentials
    requires WellFormedKnock(payload)
  {
    ProxySpec.Credentials(KnockUsername(payload), KnockPassword(payload))
  }

  /** A knock is read exactly as a login over TCP would be. */
  lemma SameCredentials(seed: Bytes, payload: Bytes)
    requires |seed| == SEED_SIZE && seed[0] == SEED && |payload| == DATAGRAM_SIZE
    ensures WellFormedKnock(payload) <==> WellFormedLogin(seed + payload)
    ensures WellFormedKnock(payload) ==>
              KnockUsername(payload) == Username(seed + payload) && KnockPassword(payload) == Password(seed + payload)
  {
    assert (seed + payload)[22..52] == payload[1..31];
    assert (seed + payload)[52..82] == payload[31..61];
  }

  /** What a datagram costs its sender; nothing if its credentials are looked up. */
  function Penalty(payload: Bytes): Option<nat> {
    if !WellFormedKnock(payload) then Some(10)
    else if !ValidUsername(KnockUsername(payload)) then Some(8)
    else None
  }

  /** What becomes of a datagram. */
  datatype Outcome = Ignored | Fined(tokens: nat) | Admitted | Requested | Terminated

  /** From a client with an entry, and what the database answers to its credentials:
      an exception there leaves a noexcept constructor and ends the process. */
  function Treatment(address: Key, payload: Bytes, answer: UserDatabase.Answer): Outcome {
    if address == 0 then Ignored
    else if Penalty(payload).Some? then Fined(Penalty(payload).value)
    else match answer
      case LetIn => Admitted
      case Ask => Requested
      case Refuse(_) => Terminated
  }

  /** What a fine or a knock adds to its client's past. */
  function Fine(tarpit: bool, now: Limiter.Time, tokens: nat): seq<Limiter.Event> {
    if tarpit then [Limiter.Do(Limiter.Charge(now, tokens))] else []
  }

  function Knocked(tarpit: bool, now: Limiter.Time, result: bool): seq<Limiter.Event> {
    if result then [Limiter.Do(Limiter.Knock(now))] else Fine(tarpit, now, 5)
  }

  /** The same in plain numbers: a datagram is read if it has 62 bytes and the first is
      0x80, and if bytes 1 to 30 hold a printable name. */
  predicate Judged(address: Key, payload: Bytes, answer: UserDatabase.Answer, outcome: Outcome) {
    if address == 0 then outcome == Ignored
    else if |payload| != 62 || payload[0] != 0x80 then outcome == Fined(10)
    else if !Wire.HasName(payload[1..31]) then outcome == Fined(8)
    else match answer
      case LetIn => outcome == Admitted
      case Ask => outcome == Requested
      case Refuse(_) => outcome == Terminated
  }

  lemma TreatmentSays(address: Key, payload: Bytes, answer: UserDatabase.Answer)
    ensures Judged(address, payload, answer, Treatment(address, payload, answer))
    ensures forall outcome ::
              Judged(address, payload, answer, outcome) ==> outcome == Treatment(address, payload, answer)
  {
    hide Wire.HasName;
    if WellFormedKnock(payload) {
      Wire.NameSays(payload[1..31]);
    }
  }

  /** An accepted knock is noted; a refused one costs 5 tokens, with a tarpit. */
  lemma KnockedSays(tarpit: bool, now: Limiter.Time, result: bool)
    ensures Knocked(tarpit, now, result) ==
            if result then [Limiter.Do(Limiter.Knock(now))]
            else if tarpit then [Limiter.Do(Limiter.Charge(now, 5))]
            else []
  {}

  /** A lookup under way for a knock; it deletes itself when it was called back. */
  class Request {
    const address: Key
    const job: UserDatabase.CheckCredentialsJob

    constructor (address: Key, job: UserDatabase.CheckCredentialsJob)
      ensures this.address == address && this.job == job
    {
      this.address, this.job := address, job;
    }
  }

  class KnockListener {
    const accounts: ClientAccountingMap
    const database: UserDatabase.Database

    /** The worker's password check. */
    const passwords: CredentialJobs.Passwords

    var requests: set<Request>
    var malformedKnocks: nat
    var rejectedKnocks: nat
    var acceptedKnocks: nat

    /** A request's job is never cancelled, and its result is the worker's. */
    ghost predicate Honest(r: Request)
      reads r.job
    {
      && r.address != 0 && !r.job.destroyed && !r.job.canceled
      && (r.job.phase.Finished? ==> r.job.result == passwords(r.job.credentials))
    }

    ghost function Jobs(): set<object>
      reads this
    {
      set r <- requests :: r.job
    }

    ghost predicate Pending()
      reads this, Jobs()
    {
      && (forall r <- requests :: Honest(r))
      && (forall r <- requests, q <- requests :: r.job == q.job ==> r == q)
    }

    ghost predicate Valid()
      reads this, Jobs(), accounts, accounts.clients.Values, accounts.registered
    {
      accounts.Valid() && accounts.Capped(null) && Pending()
    }

    constructor (accounts: ClientAccountingMap, database: UserDatabase.Database, passwords: CredentialJobs.Passwords)
      requires accounts.Valid() && accounts.Capped(null)
      ensures Valid() && requests == {}
      ensures this.accounts == accounts && this.database == database && this.passwords == passwords
    {
      this.accounts, this.database, this.passwords := accounts, database, passwords;
      requests, malformedKnocks, rejectedKnocks, acceptedKnocks := {}, 0, 0, 0;
    }

    method Penalize(accounting: PerClientAccounting, tokens: nat)
      requires accounts.Valid() && accounts.Capped(null) && accounting.clientMap == accounts && accounts.Has(accounting)
      requires tokens <= Limiter.MAX_CHARGE
      modifies this`malformedKnocks, accounts`history, accounting
      ensures accounts.Valid() && accounts.Capped(null) && malformedKnocks == old(malformedKnocks) + 1
      ensures Past(accounts.history, accounting.address) ==
              Past(old(accounts.history), accounting.address) + Fine(accounts.tarpit, accounts.now, tokens)
      ensures forall k | k != accounting.address :: Past(accounts.history, k) == Past(old(accounts.history), k)
    {
      hide ClientAccountingMap.Valid;
      hide ClientAccountingMap.Capped;
      accounting.UpdateTokenBucket(tokens, false);
      malformedKnocks := malformedKnocks + 1;
    }

    /** A datagram, and what a look at the database file would find. */
    method OnUdpDatagram(address: Key, payload: Bytes, found: UserDatabase.Found)
      returns (outcome: Outcome, request: Request?)
      requires Valid()
      modifies this`requests, this`malformedKnocks, this`acceptedKnocks, this`rejectedKnocks, database
      modifies accounts`clients, accounts`history, accounts.clients.Values
      ensures Valid() && fresh(accounts.clients.Values - old(accounts.clients.Values))
      ensures var (base, answer) := UserDatabase.Looked(database.settings, old(database.View()), found);
              && outcome == Treatment(address, payload, answer) && Judged(address, payload, answer, outcome)
              && database.View() == (if outcome.Ignored? || outcome.Fined? then old(database.View()) else base)
      ensures Past(accounts.history, address) == Past(old(accounts.history), address) +
                match outcome
                case Fined(tokens) => Fine(accounts.tarpit, accounts.now, tokens)
                case Admitted => Knocked(accounts.tarpit, accounts.now, true)
                case _ => []
      ensures forall k | k != address :: Past(accounts.history, k) == Past(old(accounts.history), k)
      ensures request != null <==> outcome.Requested?
      ensures outcome.Requested? ==>
        && fresh(request) && fresh(request.job) && request.address == address && WellFormedKnock(payload)
        && request.job.credentials == KnockCredentials(payload) && request.job.phase.Waiting?
        && request.job.credentials == ProxySpec.Credentials(CString(payload[1..31]), CString(payload[31..61]))
      ensures requests == old(requests) + (if request == null then {} else {request})
      ensures malformedKnocks == old(malformedKnocks) + (if outcome.Fined? then 1 else 0)
      ensures acceptedKnocks == old(acceptedKnocks) + (if outcome.Admitted? then 1 else 0)
      ensures rejectedKnocks == old(rejectedKnocks)
    {
      hide ClientAccountingMap.Valid;
      hide ClientAccountingMap.Capped;
      hide ValidUsername;
      hide Judged;
      hide CString;
      hide UserDatabase.Looked;
      TreatmentSays(address, payload, UserDatabase.Looked(database.settings, database.View(), found).1);
      var accounting := accounts.Get(address);
      request := null;
      if accounting == null {
        return Ignored, null;
      }
      if !WellFormedKnock(payload) {
        Penalize(accounting, 10);
        return Fined(10), null;
      }
      if !ValidUsername(KnockUsername(payload)) {
        Penalize(accounting, 8);
        return Fined(8), null;
      }
      outcome, request := Ask(address, KnockCredentials(payload), found);
    }

    /** The constructor of a request. */
    method Ask(address: Key, credentials: ProxySpec.Credentials, found: UserDatabase.Found)
      returns (outcome: Outcome, request: Request?)
      requires Valid() && address != 0
      modifies this`requests, this`acceptedKnocks, this`rejectedKnocks, database
      modifies accounts`clients, accounts`history, accounts.clients.Values
      ensures Valid() && fresh(accounts.clients.Values - old(accounts.clients.Values))
      ensures var (base, answer) := UserDatabase.Looked(database.settings, old(database.View()), found);
              && database.View() == base
              && outcome == match answer case LetIn => Admitted case Ask => Requested case Refuse(_) => Terminated
      ensures Past(accounts.history, address) == Past(old(accounts.history), address) +
                if outcome.Admitted? then Knocked(accounts.tarpit, accounts.now, true) else []
      ensures forall k | k != address :: Past(accounts.history, k) == Past(old(accounts.history), k)
      ensures request != null <==> outcome.Requested?
      ensures outcome.Requested? ==>
        && fresh(request) && fresh(request.job)
        && request.address == address && request.job.credentials == credentials && request.job.phase.Waiting?
      ensures requests == old(requests) + (if request == null then {} else {request})
      ensures acceptedKnocks == old(acceptedKnocks) + (if outcome.Admitted? then 1 else 0)
      ensures rejectedKnocks == old(rejectedKnocks)
    {
      hide ClientAccountingMap.Valid;
      hide ClientAccountingMap.Capped;
      hide UserDatabase.Looked;
      var answer, job := database.CheckCredentials(found, credentials);
      match answer {
        case LetIn =>
          OnCheckCredentials(address, true);
          outcome, request := Admitted, null;
        case Ask =>
          request := new Request(address, job.value);
          requests := requests + {request};
          outcome := Requested;
        case Refuse(_) =>
          outcome, request := Terminated, null;
      }
    }

    /** The database's answer to a request. */
    method OnCheckCredentials(address: Key, result: bool)
      requires accounts.Valid() && accounts.Capped(null) && address != 0
      modifies this`rejectedKnocks, this`acceptedKnocks, accounts`clients, accounts`history, accounts.clients.Values
      ensures accounts.Valid() && accounts.Capped(null)
      ensures fresh(accounts.clients.Values - old(accounts.clients.Values))
      ensures acceptedKnocks == old(acceptedKnocks) + (if result then 1 else 0)
      ensures rejectedKnocks == old(rejectedKnocks) + (if result then 0 else 1)
      ensures Past(accounts.history, address) ==
              Past(old(accounts.history), address) + Knocked(accounts.tarpit, accounts.now, result)
      ensures forall k | k != address :: Past(accounts.history, k) == Past(old(accounts.history), k)
    {
      hide ClientAccountingMap.Valid;
      hide ClientAccountingMap.Capped;
      var accounting := accounts.Get(address);
      if !result {
        accounting.UpdateTokenBucket(5, false);
        rejectedKnocks := rejectedKnocks + 1;
      } else {
        acceptedKnocks := acceptedKnocks + 1;
        accounting.SetKnocked();
      }
    }

    /** The worker thread runs a request's job. */
    method Work(request: Request)
      requires Valid() && request in requests && request.job.phase.Waiting?
      modifies request.job
      ensures Valid() && request.job.phase.Finished?
    {
      hide ClientAccountingMap.Valid;
      hide ClientAccountingMap.Capped;
      request.job.phase := CredentialJobs.Busy;
      request.job.Run(passwords);
    }

    /** The job is done: a knock counts exactly if the worker accepted the credentials
        that came with it. */
    method OnDone(request: Request)
      requires Valid() && request in requests && request.job.phase.Finished?
      modifies this`requests, this`rejectedKnocks, this`acceptedKnocks, request.job
      modifies accounts`clients, accounts`history, accounts.clients.Values
      ensures Valid() && requests == old(requests) - {request}
      ensures fresh(accounts.clients.Values - old(accounts.clients.Values))
      ensures Past(accounts.history, request.address) == Past(old(accounts.history), request.address) +
                if passwords(request.job.credentials) then [Limiter.Do(Limiter.Knock(accounts.now))]
                else if accounts.tarpit then [Limiter.Do(Limiter.Charge(accounts.now, 5))]
                else []
      ensures forall k | k != request.address :: Past(accounts.history, k) == Past(old(accounts.history), k)
    {
      hide ClientAccountingMap.Valid;
      hide ClientAccountingMap.Capped;
      var callback := request.job.Done();
      requests := requests - {request};
      OnCheckCredentials(request.address, callback.value);
      KnockedSays(accounts.tarpit, accounts.now, callback.value);
    }

    /** A readable datagram, a worker, a finished job: a right password leaves a knock
        in its client's past, and a wrong one a charge. */
    method Knock(address: Key, payload: Bytes, found: UserDatabase.Found)
      requires Valid() && address != 0
      requires |payload| == 62 && payload[0] == 0x80 && Wire.HasName(payload[1..31])
      requires UserDatabase.Looked(database.settings, database.View(), found).1.Ask?
      modifies this, database, accounts`clients, accounts`history, accounts.clients.Values
      ensures Valid() && requests == old(requests)
      ensures fresh(accounts.clients.Values - old(accounts.clients.Values))
      ensures var accepted := passwords(ProxySpec.Credentials(CString(payload[1..31]), CString(payload[31..61])));
              Past(accounts.history, address) == Past(old(accounts.history), address) +
                if accepted then [Limiter.Do(Limiter.Knock(accounts.now))]
                else if accounts.tarpit then [Limiter.Do(Limiter.Charge(accounts.now, 5))]
                else []
      ensures forall k | k != address :: Past(accounts.history, k) == Past(old(accounts.history), k)
    {
      hide ClientAccountingMap.Valid;
      hide ClientAccountingMap.Capped;
      hide Treatment;
      hide Fine;
      hide Knocked;
      hide CString;
      hide KnockCredentials;
      hide WellFormedKnock;
      hide Wire.HasName;
      hide UserDatabase.Looked;
      var outcome, request := OnUdpDatagram(address, payload, found);
      assert Past(old(accounts.history), address) + [] == Past(old(accounts.history), address);
      Work(request);
      OnDone(request);
    }
  }
}
