// The user database and its reloading, and the objects behind a credentials
// check (src/Database.cxx).
module UserDatabase {
  import opened Packets
  import opened Kernel
  import opened ProxySpec
  import opened CredentialJobs

  /** A file's modification time, in seconds. */
  type FileTime = int

  datatype Load = Loaded | Failed(error: nat)

  /** What one look at the file finds: a regular file has a modification time, and
      loading it would succeed or not. */
  datatype Found = NoFile | NotRegular | Regular(mtime: FileTime, load: Load)

  datatype Error = StatFailed | NotRegularFile | LoadFailed(error: nat)
  datatype Settings = Settings(path: bool, autoReload: bool)

  /** `db` says whether a database is open. */
  datatype Base = Base(db: bool, lastMtime: FileTime, lastReloadError: Option<Error>)

  /** CheckCredentials lets everyone in, queues a job, or throws an error. */
  datatype Answer = LetIn | Ask | Refuse(error: Error)

  /** Database::MaybeAutoReload, and what it throws. */
  function Reloaded(b: Base, f: Found): (Base, Option<Error>) {
    match f
    case NoFile => (b, Some(StatFailed))
    case NotRegular => (b, Some(NotRegularFile))
    case Regular(mtime, load) =>
      if mtime == b.lastMtime then (b, b.lastReloadError)
      else match load
        case Loaded => (Base(true, mtime, None), None)
        case Failed(e) => (Base(false, mtime, Some(LoadFailed(e))), Some(LoadFailed(e)))
  }

  /** Database::CheckCredentials */
  function Looked(s: Settings, b: Base, f: Found): (Base, Answer) {
    var (b', thrown) := if s.autoReload then Reloaded(b, f) else (b, None);
    (b', if thrown.Some? then Refuse(thrown.value) else if b'.db then Ask else LetIn)
  }

  /** A database that is not reloaded was opened at the start. */
  function Opened(s: Settings): Base { Base(s.path && !s.autoReload, 0, None) }

  /** After one check for each look at the file. */
  function After(s: Settings, looks: seq<Found>): Base {
    if looks == [] then Opened(s) else Looked(s, After(s, looks[..|looks| - 1]), looks[|looks| - 1]).0
  }

  function AnswerTo(s: Settings, looks: seq<Found>): Answer
    requires looks != []
  {
    Looked(s, After(s, looks[..|looks| - 1]), looks[|looks| - 1]).1
  }

  // ---- What reloading comes to ----

  /** The modification time seen last, 0 at first. */
  function LastSeen(looks: seq<Found>): FileTime {
    if looks == [] then 0
    else if looks[|looks| - 1].Regular? then looks[|looks| - 1].mtime
    else LastSeen(looks[..|looks| - 1])
  }

  /** The outcome of the load that counts: the one at the look that first showed
      the modification time seen last.  None if the file was never loaded. */
  function Attempt(looks: seq<Found>): Option<Load> {
    if looks == [] then None
    else
      var before, last := looks[..|looks| - 1], looks[|looks| - 1];
      if last.Regular? && last.mtime != LastSeen(before) then Some(last.load) else Attempt(before)
  }

  lemma {:induction false} ReloadState(s: Settings, looks: seq<Found>)
    requires s.autoReload
    ensures var b := After(s, looks);
            && b.lastMtime == LastSeen(looks)
            && match Attempt(looks)
               case None => !b.db && b.lastReloadError == None
               case Some(Loaded) => b.db && b.lastReloadError == None
               case Some(Failed(e)) => !b.db && b.lastReloadError == Some(LoadFailed(e))
  {
    if looks != [] {
      ReloadState(s, looks[..|looks| - 1]);
    }
  }

  /** Every answer, on every history of the file: one failed load is reported
      until the modification time changes, never papered over by old contents. */
  lemma ReloadAnswers(s: Settings, looks: seq<Found>)
    requires s.autoReload && looks != []
    ensures AnswerTo(s, looks) ==
      match looks[|looks| - 1]
      case NoFile => Refuse(StatFailed)
      case NotRegular => Refuse(NotRegularFile)
      case Regular(_, _) =>
        match Attempt(looks)
        case None => LetIn
        case Some(Loaded) => Ask
        case Some(Failed(e)) => Refuse(LoadFailed(e))
  {
    ReloadState(s, looks[..|looks| - 1]);
  }

  predicate OnlyEpoch(looks: seq<Found>) { forall f <- looks :: f.Regular? ==> f.mtime == 0 }

  lemma {:induction false} NeverLoadedIff(looks: seq<Found>)
    ensures Attempt(looks) == None <==> OnlyEpoch(looks)
    ensures OnlyEpoch(looks) ==> LastSeen(looks) == 0
  {
    if looks != [] {
      NeverLoadedIff(looks[..|looks| - 1]);
      assert looks == looks[..|looks| - 1] + [looks[|looks| - 1]];
    }
  }

  /** Exactly when everyone is let in: without a database by configuration, or
      while no regular file has ever shown a modification time other than 0. */
  lemma FailsOpenIff(s: Settings, looks: seq<Found>)
    requires looks != []
    ensures AnswerTo(s, looks) == LetIn <==>
      if s.autoReload then looks[|looks| - 1].Regular? && OnlyEpoch(looks) else !s.path
  {
    if s.autoReload {
      ReloadAnswers(s, looks);
      NeverLoadedIff(looks);
    } else {
      NeverReloaded(s, looks[..|looks| - 1]);
    }
  }

  lemma {:induction false} NeverReloaded(s: Settings, looks: seq<Found>)
    requires !s.autoReload
    ensures After(s, looks) == Opened(s)
  {
    if looks != [] {
      NeverReloaded(s, looks[..|looks| - 1]);
    }
  }

  /** Without reloading: a configured database is asked, always. */
  lemma StaticAnswers(s: Settings, looks: seq<Found>)
    requires !s.autoReload && looks != []
    ensures AnswerTo(s, looks) == if s.path then Ask else LetIn
  {
    NeverReloaded(s, looks[..|looks| - 1]);
  }

  /** Once a file with a modification time other than 0 was seen: a database is
      open exactly if no error is stored. */
  lemma OpenIffNoError(s: Settings, looks: seq<Found>)
    requires s.autoReload && !OnlyEpoch(looks)
    ensures After(s, looks).db <==> After(s, looks).lastReloadError == None
  {
    ReloadState(s, looks);
    NeverLoadedIff(looks);
  }

  /** While the modification time stays, so does the answer. */
  lemma SameUntilModified(s: Settings, looks: seq<Found>, more: seq<Found>)
    requires s.autoReload && looks != [] && more != []
    requires looks[|looks| - 1].Regular? && more[|more| - 1].Regular?
    requires forall f <- more :: f.Regular? ==> f.mtime == looks[|looks| - 1].mtime
    ensures AnswerTo(s, looks + more) == AnswerTo(s, looks)
  {
    ReloadAnswers(s, looks);
    ReloadAnswers(s, looks + more);
    SameAttempt(looks, more);
  }

  lemma {:induction false} SameAttempt(looks: seq<Found>, more: seq<Found>)
    requires forall f <- more :: f.Regular? ==> f.mtime == LastSeen(looks)
    ensures Attempt(looks + more) == Attempt(looks) && LastSeen(looks + more) == LastSeen(looks)
  {
    if more == [] {
      assert looks + more == looks;
    } else {
      assert (looks + more)[..|looks + more| - 1] == looks + more[..|more| - 1];
      SameAttempt(looks, more[..|more| - 1]);
    }
  }

  // ---- The database behind the proxy ----

  function AsLookup(a: Answer): Lookup {
    match a case LetIn => NoDatabase case Ask => Queued case Refuse(_) => Throws
  }

  /** Each of a connection's lookups was answered after some looks at the file. */
  ghost predicate AnsweredBy(s: Settings, looks: seq<Found>, moves: seq<Move>) {
    forall m <- moves :: m.Loop? && m.event.Incoming? ==>
      exists k | 0 < k <= |looks| :: m.event.io.lookup == AsLookup(AnswerTo(s, looks[..k]))
  }

  /** From the file to the game server: with a database configured, and no file
      dated 0 where it is reloaded, only clients whose own password the worker
      accepted get an address to connect to. */
  lemma DatabaseGuards(setup: Setup, accepts: Passwords, s: Settings, looks: seq<Found>, moves: seq<Move>)
    requires AnsweredBy(s, looks, moves)
    requires if s.autoReload then forall f <- looks :: f.Regular? ==> f.mtime != 0 else s.path
    ensures var c := RaceRun(setup, accepts, moves).conn;
            c.outgoingAddress.Some? ==>
              83 <= |c.up.src| && accepts(Credentials(CString(c.up.src[22..52]), CString(c.up.src[52..82])))
  {
    hide RaceRun;
    forall k | 0 < k <= |looks| ensures AnswerTo(s, looks[..k]) != LetIn {
      FailsOpenIff(s, looks[..k]);
      assert looks[..k][k - 1] in looks;
    }
    assert WithDatabase(moves);
    ConnectsOnlyVerified(setup, accepts, moves);
  }

  /** class Database; the files it finds are chosen by the environment. */
  class Database {
    var db: bool
    var lastMtime: FileTime
    var lastReloadError: Option<Error>
    const settings: Settings

    function View(): Base reads this { Base(db, lastMtime, lastReloadError) }

    constructor (settings: Settings)
      ensures this.settings == settings && View() == Opened(settings)
    {
      this.settings := settings;
      db, lastMtime, lastReloadError := settings.path && !settings.autoReload, 0, None;
    }

    method MaybeAutoReload(found: Found) returns (thrown: Option<Error>)
      requires settings.autoReload
      modifies this
      ensures (View(), thrown) == Reloaded(old(View()), found)
    {
      if found.NoFile? {
        return Some(StatFailed);
      }
      if found.NotRegular? {
        return Some(NotRegularFile);
      }
      if found.mtime == lastMtime {
        return lastReloadError;
      }
      lastMtime := found.mtime;
      db := false;
      lastReloadError := None;
      if found.load.Failed? {
        lastReloadError := Some(LoadFailed(found.load.error));
        return lastReloadError;
      }
      db := true;
      return None;
    }

    method CheckCredentials(found: Found, credentials: Credentials)
      returns (answer: Answer, job: Option<CheckCredentialsJob>)
      modifies this
      ensures (View(), answer) == Looked(settings, old(View()), found)
      ensures job.Some? <==> answer.Ask?
      ensures job.Some? ==>
                fresh(job.value) && job.value.View() == Some(CredentialJobs.Job(credentials, Waiting, false, false))
    {
      job := None;
      if settings.autoReload {
        var thrown := MaybeAutoReload(found);
        if thrown.Some? {
          return Refuse(thrown.value), None;
        }
      }
      if !db {
        return LetIn, None;
      }
      var j := new CheckCredentialsJob(credentials);
      return Ask, Some(j);
    }
  }

  /** A job in its queue; `phase` is the queue's own note on it, and `destroyed`
      says that it deleted itself. */
  class CheckCredentialsJob {
    const credentials: Credentials
    var phase: Phase
    var canceled: bool
    var result: bool
    ghost var destroyed: bool

    ghost function View(): Option<CredentialJobs.Job> reads this {
      if destroyed then None else Some(CredentialJobs.Job(credentials, phase, canceled, result))
    }

    constructor (credentials: Credentials)
      ensures View() == Some(CredentialJobs.Job(credentials, Waiting, false, false))
    {
      this.credentials := credentials;
      phase, canceled, result, destroyed := Waiting, false, false, false;
    }

    method Run(passwords: Passwords)
      requires !destroyed && phase.Busy?
      modifies this
      ensures View() == Some(Ran(old(View()).value, passwords))
    {
      result := passwords(credentials);
      phase := Finished;
    }

    /** The result that the callback gets, unless nobody waits any more. */
    method Done() returns (callback: Option<bool>)
      requires !destroyed && phase.Finished?
      modifies this
      ensures View() == None
      ensures callback == if old(View()).value.canceled then None else Some(old(View()).value.result)
    {
      callback := if canceled then None else Some(result);
      destroyed := true;
    }

    method Cancel()
      requires !destroyed
      modifies this
      ensures View() == Cancelled(old(View()).value)
    {
      canceled := true;
      if phase.Waiting? {
        destroyed := true;
      }
    }
  }

  // ---- The password check ----

  const USERNAME_BUFFER: nat := 30
  const HASH_BUFFER: nat := 128

  function ToUpper(b: byte): byte { if 0x61 <= b <= 0x7a then b - 0x20 else b }

  function Upper(name: Bytes): (u: Bytes)
    ensures |u| == |name|
  {
    seq(|name|, i requires 0 <= i < |name| => ToUpper(name[i]))
  }

  /** CheckCredentialsJob::CheckPassword over the database's contents (a missing
      key reads as an empty value) and the hash verification. */
  function CheckPassword(get: Bytes -> Bytes, verify: (Bytes, Bytes) -> bool): Passwords {
    (c: Credentials) =>
      |c.username| <= USERNAME_BUFFER
      && 0 < |get(Upper(c.username))| < HASH_BUFFER
      && verify(get(Upper(c.username)), c.password)
  }

  /** The key is the name with a to z made A to Z. */
  lemma UpperSays(name: Bytes, i: nat)
    requires i < |name|
    ensures |Upper(name)| == |name|
    ensures Upper(name)[i] == if 97 <= name[i] <= 122 then name[i] - 32 else name[i]
  {}

  /** A password is accepted exactly if its name has at most 30 bytes, has an entry of
      1 to 127 bytes, and verifies against it. */
  lemma PasswordSays(get: Bytes -> Bytes, verify: (Bytes, Bytes) -> bool, c: Credentials, key: Bytes)
    requires |key| == |c.username|
    requires forall i | 0 <= i < |key| ::
               key[i] == if 97 <= c.username[i] <= 122 then c.username[i] - 32 else c.username[i]
    ensures CheckPassword(get, verify)(c) <==>
              |c.username| <= 30 && 1 <= |get(key)| <= 127 && verify(get(key), c.password)
  {
    forall i: nat | i < |key| ensures key[i] == Upper(c.username)[i] {
      UpperSays(c.username, i);
    }
    assert key == Upper(c.username);
  }

  predicate SameLetter(x: byte, y: byte) {
    x == y || (0x41 <= x <= 0x5a && y == x + 0x20) || (0x41 <= y <= 0x5a && x == y + 0x20)
  }

  /** Users are told apart exactly by their names without regard to case. */
  lemma CaseDoesNotMatter(a: Bytes, b: Bytes)
    ensures Upper(a) == Upper(b) <==> |a| == |b| && forall i :: 0 <= i < |a| ==> SameLetter(a[i], b[i])
  {
    if Upper(a) == Upper(b) {
      forall i | 0 <= i < |a| ensures SameLetter(a[i], b[i]) {
        assert Upper(a)[i] == Upper(b)[i];
      }
    }
  }

  /** So no answer depends on the case in which a user name is written. */
  lemma SameAnswer(get: Bytes -> Bytes, verify: (Bytes, Bytes) -> bool, a: Bytes, b: Bytes, password: Bytes)
    requires |a| == |b| && forall i :: 0 <= i < |a| ==> SameLetter(a[i], b[i])
    ensures CheckPassword(get, verify)(Credentials(a, password)) == CheckPassword(get, verify)(Credentials(b, password))
  {
    CaseDoesNotMatter(a, b);
  }

  /** The guard with the real password check: whoever gets an address has an entry
      in the database under the upper-case name, and the password to its hash. */
  lemma PasswordGuards(setup: Setup, get: Bytes -> Bytes, verify: (Bytes, Bytes) -> bool,
                       s: Settings, looks: seq<Found>, moves: seq<Move>)
    requires AnsweredBy(s, looks, moves)
    requires if s.autoReload then forall f <- looks :: f.Regular? ==> f.mtime != 0 else s.path
    ensures var c := RaceRun(setup, CheckPassword(get, verify), moves).conn;
            c.outgoingAddress.Some? ==>
              && 83 <= |c.up.src|
              && var hash := get(Upper(CString(c.up.src[22..52])));
                 1 <= |hash| <= 127 && verify(hash, CString(c.up.src[52..82]))
  {
    hide RaceRun;
    hide CString;
    DatabaseGuards(setup, CheckPassword(get, verify), s, looks, moves);
  }
}
