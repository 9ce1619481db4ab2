/**
 * Concurrent updates and loads of the metadata file, split at every point where a process can be
 * stopped: take the lock, read and normalise, apply, write a temporary file, rename, unlock.
 */
module LockedStore {
  import opened Prelude
  import opened Records
  import opened Normalization

  type ClientId = nat

  // What a handler does to the loaded database; an error writes nothing.
  type Transaction = Database -> Result<Database, ErrorCode>

  // update is None for a plain load.
  datatype Job = Job(update: Option<Transaction>)

  datatype Phase =
    | Waiting
    | Locked
    | Loaded(db: Database)
    | Applied(db: Database)
    | Writing(db: Database)
    | Synced(db: Database)
    | Closing(done: bool)
    | Answering(db: Database)
    | Finished(done: bool)
    | Answered(db: Database)
    | Dead

  // How many transactions had committed when the call began, when it read the file, and before its own.
  datatype Client = Client(job: Job, phase: Phase, since: nat, seen: nat, at: Option<nat>)

  datatype Temp = Partial | Complete(db: Database)

  datatype Commit = Commit(client: ClientId, update: Transaction)

  datatype State = State(
    file: Option<Stored>,
    temps: map<ClientId, Temp>,
    lock: Option<ClientId>,
    clients: map<ClientId, Client>,
    base: Option<Stored>,
    history: seq<Commit>)

  datatype Event =
    | Begin(c: ClientId, job: Job)
    | TakeLock(c: ClientId)
    | LockTimeout(c: ClientId)
    | Read(c: ClientId)
    | Apply(c: ClientId)
    | OpenTemp(c: ClientId)
    | FillTemp(c: ClientId)
    | WriteFault(c: ClientId)
    | Rename(c: ClientId)
    | Unlock(c: ClientId)
    | Crash(c: ClientId)

  // ---- the atomic view ----

  /** One transaction as a single step on the file. */
  ghost function AtomicStep(file: Option<Stored>, update: Transaction): Option<Stored> {
    var loaded := Normalize(file);
    if loaded.Err? then file
    else
      var r := update(loaded.value);
      if r.Err? then file else Some(Stored(CURRENT_VERSION, r.value))
  }

  /** The file after committing these transactions one after the other. */
  ghost function AtomicRun(base: Option<Stored>, history: seq<Commit>): Option<Stored> {
    if history == [] then base
    else AtomicStep(AtomicRun(base, history[..|history| - 1]), history[|history| - 1].update)
  }

  // ---- steps ----

  function To(s: State, c: ClientId, phase: Phase): State
    requires c in s.clients
  {
    s.(clients := s.clients[c := s.clients[c].(phase := phase)])
  }

  predicate In(s: State, c: ClientId, phase: Phase) {
    c in s.clients && s.clients[c].phase == phase
  }

  // Between taking and releasing the lock.
  predicate Inside(phase: Phase) {
    !phase.Waiting? && !phase.Finished? && !phase.Answered? && !phase.Dead?
  }

  ghost predicate BeginNext(s: State, c: ClientId, job: Job, t: State) {
    c !in s.clients && t == s.(clients := s.clients[c := Client(job, Waiting, |s.history|, 0, None)])
  }

  ghost predicate TakeLockNext(s: State, c: ClientId, t: State) {
    In(s, c, Waiting) && s.lock == None && t == To(s, c, Locked).(lock := Some(c))
  }

  ghost predicate LockTimeoutNext(s: State, c: ClientId, t: State) {
    In(s, c, Waiting) && t == To(s, c, Finished(false))
  }

  ghost predicate ReadNext(s: State, c: ClientId, t: State) {
    && In(s, c, Locked)
    && var r := Normalize(s.file);
    && var phase := if r.Err? then Closing(false)
                    else if s.clients[c].job.update.None? then Answering(r.value) else Loaded(r.value);
    && t == s.(clients := s.clients[c := s.clients[c].(phase := phase, seen := |s.history|)])
  }

  ghost predicate ApplyNext(s: State, c: ClientId, t: State) {
    && c in s.clients && s.clients[c].phase.Loaded? && s.clients[c].job.update.Some?
    && var r := s.clients[c].job.update.value(s.clients[c].phase.db);
    && t == To(s, c, if r.Err? then Closing(false) else Applied(r.value))
  }

  ghost predicate OpenTempNext(s: State, c: ClientId, t: State) {
    && c in s.clients && s.clients[c].phase.Applied?
    && t == To(s, c, Writing(s.clients[c].phase.db)).(temps := s.temps[c := Partial])
  }

  ghost predicate FillTempNext(s: State, c: ClientId, t: State) {
    && c in s.clients && s.clients[c].phase.Writing?
    && t == To(s, c, Synced(s.clients[c].phase.db)).(temps := s.temps[c := Complete(s.clients[c].phase.db)])
  }

  // An injected or real failure of any part of the write: the temporary file is removed.
  ghost predicate WriteFaultNext(s: State, c: ClientId, t: State) {
    && c in s.clients
    && (s.clients[c].phase.Applied? || s.clients[c].phase.Writing? || s.clients[c].phase.Synced?)
    && t == To(s, c, Closing(false)).(temps := s.temps - {c})
  }

  // The rename puts the temporary file itself in place of the metadata file.
  ghost predicate RenameNext(s: State, c: ClientId, t: State) {
    && c in s.clients && s.clients[c].phase.Synced? && c in s.temps && s.temps[c].Complete?
    && s.clients[c].job.update.Some?
    && t == s.(file := Some(Stored(CURRENT_VERSION, s.temps[c].db)), temps := s.temps - {c},
               clients := s.clients[c := s.clients[c].(phase := Closing(true), at := Some(|s.history|))],
               history := s.history + [Commit(c, s.clients[c].job.update.value)])
  }

  ghost predicate UnlockNext(s: State, c: ClientId, t: State) {
    && c in s.clients
    && match s.clients[c].phase
       case Closing(done) => t == To(s, c, Finished(done)).(lock := None)
       case Answering(db) => t == To(s, c, Answered(db)).(lock := None)
       case _ => false
  }

  // The operating system drops the lock of a process that is gone; its temporary file stays.
  ghost predicate CrashNext(s: State, c: ClientId, t: State) {
    c in s.clients && t == To(s, c, Dead).(lock := if s.lock == Some(c) then None else s.lock)
  }

  ghost predicate Next(s: State, e: Event, t: State) {
    match e
    case Begin(c, job) => BeginNext(s, c, job, t)
    case TakeLock(c) => TakeLockNext(s, c, t)
    case LockTimeout(c) => LockTimeoutNext(s, c, t)
    case Read(c) => ReadNext(s, c, t)
    case Apply(c) => ApplyNext(s, c, t)
    case OpenTemp(c) => OpenTempNext(s, c, t)
    case FillTemp(c) => FillTempNext(s, c, t)
    case WriteFault(c) => WriteFaultNext(s, c, t)
    case Rename(c) => RenameNext(s, c, t)
    case Unlock(c) => UnlockNext(s, c, t)
    case Crash(c) => CrashNext(s, c, t)
  }

  ghost predicate Init(s: State) {
    s.base == s.file && s.history == [] && s.clients == map[] && s.lock == None
  }

  ghost predicate StepAt(states: seq<State>, events: seq<Event>, i: nat)
    requires |states| == |events| + 1
  {
    i < |events| ==> Next(states[i], events[i], states[i + 1])
  }

  ghost predicate Run(states: seq<State>, events: seq<Event>) {
    && |states| == |events| + 1 && Init(states[0])
    && forall i: nat :: StepAt(states, events, i)
  }

  // ---- invariant ----

  // What the holder of the lock has computed so far is still true of the file.
  ghost predicate Computed(s: State, c: ClientId, x: Client) {
    match x.phase
    case Loaded(db) => Normalize(s.file) == Ok(db)
    case Applied(db) => Commits(s, x, db)
    case Writing(db) => Commits(s, x, db)
    case Synced(db) => Commits(s, x, db) && c in s.temps && s.temps[c] == Complete(db)
    case _ => true
  }

  ghost predicate Commits(s: State, x: Client, db: Database) {
    && x.job.update.Some? && Normalize(s.file).Ok?
    && x.job.update.value(Normalize(s.file).value) == Ok(db)
  }

  // The call's place in the history: exactly the renames that happened have one.
  ghost predicate Placed(s: State, c: ClientId, x: Client) {
    && x.since <= |s.history|
    && (x.at.Some? ==> && x.since <= x.at.value < |s.history| && x.job.update.Some?
                       && s.history[x.at.value] == Commit(c, x.job.update.value))
    && (x.phase == Closing(true) || x.phase == Finished(true) ==> x.at.Some?)
    && (x.at.Some? ==> x.phase == Closing(true) || x.phase == Finished(true) || x.phase == Dead)
  }

  // What a load answers is the file after the first `seen` transactions.
  ghost predicate ReadAt(s: State, x: Client, db: Database) {
    x.since <= x.seen <= |s.history| && Normalize(AtomicRun(s.base, s.history[..x.seen])) == Ok(db)
  }

  ghost predicate ReadRight(s: State, x: Client) {
    && (x.phase.Answering? ==> ReadAt(s, x, x.phase.db))
    && (x.phase.Answered? ==> ReadAt(s, x, x.phase.db))
  }

  ghost predicate LockInv(s: State) {
    && (forall c :: c in s.clients && Inside(s.clients[c].phase) ==> s.lock == Some(c))
    && (forall c :: c in s.clients ==> Computed(s, c, s.clients[c]))
  }

  ghost predicate HistoryInv(s: State) {
    && (forall i :: 0 <= i < |s.history| ==>
          s.history[i].client in s.clients && s.clients[s.history[i].client].at == Some(i))
    && (forall c :: c in s.clients ==> Placed(s, c, s.clients[c]))
  }

  ghost predicate ReadsInv(s: State) {
    forall c :: c in s.clients ==> ReadRight(s, s.clients[c])
  }

  ghost predicate Inv(s: State) {
    s.file == AtomicRun(s.base, s.history) && LockInv(s) && HistoryInv(s) && ReadsInv(s)
  }

  lemma NextKeepsFile(s: State, e: Event, t: State)
    requires Inv(s) && Next(s, e, t)
    ensures t.base == s.base && t.file == AtomicRun(t.base, t.history)
    ensures t.history == s.history || (e.Rename? && |t.history| == |s.history| + 1 && t.history[..|s.history|] == s.history)
  {
    if e.Rename? {
      assert t.history[..|t.history| - 1] == s.history;
      assert Computed(s, e.c, s.clients[e.c]);
    }
  }

  // A step is one client's.
  lemma OnlyOneMoves(s: State, e: Event, t: State, c: ClientId)
    requires Next(s, e, t) && c != e.c
    ensures c in t.clients <==> c in s.clients
    ensures c in s.clients ==> t.clients[c] == s.clients[c]
    ensures (c in t.temps <==> c in s.temps) && (c in s.temps ==> t.temps[c] == s.temps[c])
    ensures s.lock == Some(c) ==> t.lock == Some(c) || (e.Unlock? && e.c in s.clients && Inside(s.clients[e.c].phase))
    ensures t.file == s.file || (e.Rename? && e.c in s.clients && Inside(s.clients[e.c].phase))
  {
  }

  lemma OthersStayLocked(s: State, e: Event, t: State, c: ClientId)
    requires LockInv(s) && Next(s, e, t) && c in t.clients && c != e.c
    ensures (Inside(t.clients[c].phase) ==> t.lock == Some(c)) && Computed(t, c, t.clients[c])
  {
    OnlyOneMoves(s, e, t, c);
    assert Computed(s, c, s.clients[c]);
  }

  lemma MoverStaysLocked(s: State, e: Event, t: State)
    requires LockInv(s) && Next(s, e, t) && e.c in t.clients
    ensures (Inside(t.clients[e.c].phase) ==> t.lock == Some(e.c)) && Computed(t, e.c, t.clients[e.c])
  {
    assert e.c in s.clients ==> Computed(s, e.c, s.clients[e.c]);
  }

  lemma NextKeepsLock(s: State, e: Event, t: State)
    requires LockInv(s) && Next(s, e, t)
    ensures LockInv(t)
  {
    forall c | c in t.clients
      ensures (Inside(t.clients[c].phase) ==> t.lock == Some(c)) && Computed(t, c, t.clients[c])
    {
      if c == e.c {
        MoverStaysLocked(s, e, t);
      } else {
        OthersStayLocked(s, e, t, c);
      }
    }
  }

  lemma RenameKeepsHistory(s: State, c: ClientId, t: State)
    requires HistoryInv(s) && RenameNext(s, c, t)
    ensures HistoryInv(t)
  {
    forall k | k in t.clients ensures Placed(t, k, t.clients[k]) {
      assert Placed(s, k, s.clients[k]);
    }
  }

  // Without a rename neither the history nor anybody's place in it changes.
  lemma PlaceStays(s: State, e: Event, t: State, c: ClientId)
    requires Next(s, e, t) && !e.Rename? && c in t.clients && (c in s.clients ==> Placed(s, c, s.clients[c]))
    ensures Placed(t, c, t.clients[c]) && t.history == s.history
    ensures c in s.clients ==> t.clients[c].at == s.clients[c].at
  {
    if c != e.c {
      OnlyOneMoves(s, e, t, c);
    }
  }

  lemma NoClientLeaves(s: State, e: Event, t: State)
    requires Next(s, e, t)
    ensures s.clients.Keys <= t.clients.Keys
  {
  }

  lemma NextKeepsHistory(s: State, e: Event, t: State)
    requires HistoryInv(s) && Next(s, e, t)
    ensures HistoryInv(t)
  {
    if e.Rename? {
      RenameKeepsHistory(s, e.c, t);
    } else {
      NoClientLeaves(s, e, t);
      forall c | c in t.clients ensures Placed(t, c, t.clients[c]) {
        PlaceStays(s, e, t, c);
      }
      forall i | 0 <= i < |t.history|
        ensures t.history[i].client in t.clients && t.clients[t.history[i].client].at == Some(i)
      {
        PlaceStays(s, e, t, e.c);
        PlaceStays(s, e, t, s.history[i].client);
      }
    }
  }

  // What was read stays a prefix of the history as it grows.
  lemma ReadStays(s: State, t: State, x: Client, db: Database)
    requires ReadAt(s, x, db) && t.base == s.base && s.history <= t.history
    ensures ReadAt(t, x, db)
  {
    assert t.history[..x.seen] == s.history[..x.seen];
  }

  // The mover answers what it has just read, or what it answered before.
  lemma MoverReadsRight(s: State, e: Event, t: State)
    requires ReadsInv(s) && Next(s, e, t) && e.c in t.clients && t.base == s.base && s.history <= t.history
    requires s.file == AtomicRun(s.base, s.history) && (e.c in s.clients ==> s.clients[e.c].since <= |s.history|)
    ensures ReadRight(t, t.clients[e.c])
  {
    if e.Read? {
      assert t.history[..|s.history|] == s.history;
    } else if e.c in s.clients {
      assert ReadRight(s, s.clients[e.c]);
      if s.clients[e.c].phase.Answering? {
        ReadStays(s, t, s.clients[e.c], s.clients[e.c].phase.db);
      }
    }
  }

  lemma NextKeepsReads(s: State, e: Event, t: State)
    requires Inv(s) && Next(s, e, t)
    ensures ReadsInv(t)
  {
    NextKeepsFile(s, e, t);
    forall c | c in t.clients ensures ReadRight(t, t.clients[c]) {
      if c == e.c {
        assert c in s.clients ==> Placed(s, c, s.clients[c]);
        MoverReadsRight(s, e, t);
      } else {
        OnlyOneMoves(s, e, t, c);
        var x := s.clients[c];
        assert ReadRight(s, x);
        if x.phase.Answering? || x.phase.Answered? {
          ReadStays(s, t, x, x.phase.db);
        }
      }
    }
  }

  lemma {:induction false} ReachableInv(states: seq<State>, events: seq<Event>, i: nat)
    requires Run(states, events) && i < |states|
    ensures Inv(states[i]) && states[i].base == states[0].base
  {
    if i > 0 {
      ReachableInv(states, events, i - 1);
      assert StepAt(states, events, i - 1);
      var s, e, t := states[i - 1], events[i - 1], states[i];
      NextKeepsFile(s, e, t);
      NextKeepsLock(s, e, t);
      NextKeepsHistory(s, e, t);
      NextKeepsReads(s, e, t);
    }
  }

  lemma {:induction false} HistoryGrows(states: seq<State>, events: seq<Event>, i: nat, j: nat)
    requires Run(states, events) && i <= j < |states|
    ensures |states[i].history| <= |states[j].history|
    ensures states[j].history[..|states[i].history|] == states[i].history
    decreases j
  {
    if i < j {
      HistoryGrows(states, events, i, j - 1);
      ReachableInv(states, events, j - 1);
      assert StepAt(states, events, j - 1);
      NextKeepsFile(states[j - 1], events[j - 1], states[j]);
    }
  }

  // ---- over whole runs ----

  /**
   * At every point of every run the file is what the committed transactions make of the original
   * when run whole, one after the other, in commit order; and the commit order only grows.
   */
  lemma UpdatesAreAtomic(states: seq<State>, events: seq<Event>, i: nat, j: nat)
    requires Run(states, events) && i <= j < |states|
    ensures states[j].file == AtomicRun(states[0].file, states[j].history)
    ensures states[i].history <= states[j].history
  {
    ReachableInv(states, events, j);
    HistoryGrows(states, events, i, j);
  }

  /**
   * No update is lost: a call that reported success is in the history exactly once, after every
   * transaction that had committed when it began, and its function ran on what they had left.
   */
  lemma NoUpdateIsLost(states: seq<State>, events: seq<Event>, i: nat, c: ClientId)
    requires Run(states, events) && i < |states| && In(states[i], c, Finished(true))
    ensures var s := states[i]; var x := s.clients[c];
            && x.job.update.Some? && x.at.Some? && x.since <= x.at.value < |s.history|
            && s.history[x.at.value].update == x.job.update.value
            && forall k :: 0 <= k < |s.history| && s.history[k].client == c ==> k == x.at.value
  {
    ReachableInv(states, events, i);
    assert Placed(states[i], c, states[i].clients[c]);
  }

  /** A call that reported failure left no trace in the file, now or later. */
  lemma FailedUpdateLeavesNothing(states: seq<State>, events: seq<Event>, i: nat, c: ClientId)
    requires Run(states, events) && i < |states| && In(states[i], c, Finished(false))
    ensures forall k :: 0 <= k < |states[i].history| ==> states[i].history[k].client != c
  {
    ReachableInv(states, events, i);
    assert Placed(states[i], c, states[i].clients[c]);
  }

  /** A load answers a complete database: the result of a prefix that includes all that preceded the call. */
  lemma LoadsSeeWholeTransactions(states: seq<State>, events: seq<Event>, i: nat, c: ClientId)
    requires Run(states, events) && i < |states| && c in states[i].clients && states[i].clients[c].phase.Answered?
    ensures var s := states[i]; var x := s.clients[c];
            && x.since <= x.seen <= |s.history|
            && Normalize(AtomicRun(states[0].file, s.history[..x.seen])) == Ok(x.phase.db)
            && Normal(x.phase.db)
  {
    ReachableInv(states, events, i);
    assert ReadRight(states[i], states[i].clients[c]);
    LoadYieldsNormal(AtomicRun(states[0].file, states[i].history[..states[i].clients[c].seen]));
  }

  /** Two processes are never between lock and unlock at once. */
  lemma OneAtATime(states: seq<State>, events: seq<Event>, i: nat, c: ClientId, d: ClientId)
    requires Run(states, events) && i < |states|
    requires c in states[i].clients && d in states[i].clients
    requires Inside(states[i].clients[c].phase) && Inside(states[i].clients[d].phase)
    ensures c == d
  {
    ReachableInv(states, events, i);
  }

  // A transaction takes the property from its place in the commit order to the next.
  ghost predicate Carries(update: Transaction, good: (nat, Database) -> bool, k: nat, db: Database) {
    Normal(db) && good(k, db) ==>
      && good(k + 1, db)
      && var r := update(db);
      && (r.Ok? ==> Normal(r.value) && good(k + 1, r.value))
  }

  /**
   * If every transaction carries a property from its place in the commit order to the next, the file
   * has it at every point, crashes included; and a file that was written at all is what a load makes of it.
   */
  lemma {:induction false} InvariantsCarryOver(base: Option<Stored>, history: seq<Commit>, good: (nat, Database) -> bool)
    requires Normalize(base).Ok? && good(0, Normalize(base).value)
    requires forall k: nat, db :: k < |history| ==> Carries(history[k].update, good, k, db)
    ensures var r := Normalize(AtomicRun(base, history)); r.Ok? && good(|history|, r.value)
    ensures var file := AtomicRun(base, history);
            file == base || (file.Some? && file.value.version == CURRENT_VERSION && Normalize(file) == Ok(file.value.db))
  {
    if history != [] {
      var n := |history| - 1;
      var front := history[..n];
      forall k: nat, db | k < |front| ensures Carries(front[k].update, good, k, db) {
        assert Carries(history[k].update, good, k, db);
      }
      InvariantsCarryOver(base, front, good);
      var db := Normalize(AtomicRun(base, front)).value;
      LoadYieldsNormal(AtomicRun(base, front));
      assert Carries(history[n].update, good, n, db);
      var r := history[n].update(db);
      if r.Ok? {
        NormalIsKept(r.value);
      }
    }
  }

  // No call commits twice.
  lemma CommitsOnce(states: seq<State>, events: seq<Event>, i: nat, j: nat, k: nat)
    requires Run(states, events) && i < |states| && j < k < |states[i].history|
    ensures states[i].history[j].client != states[i].history[k].client
  {
    ReachableInv(states, events, i);
  }

  lemma CommitIsOwn(states: seq<State>, events: seq<Event>, i: nat, k: nat)
    requires Run(states, events) && i < |states| && k < |states[i].history|
    ensures states[i].history[k].client in states[i].clients
    ensures states[i].clients[states[i].history[k].client].job.update == Some(states[i].history[k].update)
  {
    ReachableInv(states, events, i);
    var c := states[i].history[k].client;
    assert Placed(states[i], c, states[i].clients[c]);
  }
}
