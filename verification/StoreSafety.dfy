/**
 * The commands under concurrency: whatever is interleaved and wherever a process stops, the file and
 * everything any process loads from it keep all that the single commands keep.
 */
module StoreSafety {
  import opened Prelude
  import opened Records
  import opened Environment
  import opened References
  import opened ReferenceSafety
  import opened Normalization
  import opened LockedStore
  import opened Commands
  import opened CommandSafety

  // The machine, and which command each call is for.
  datatype Program = Program(machine: Machine, commands: map<ClientId, Command>)

  // On the databases there are, the call's transaction is the command's.
  ghost predicate Performs(update: Transaction, machine: Machine, c: Command) {
    forall db :: Good(machine, db) ==> update(db) == Perform(machine, c, db)
  }

  /** Every updating call runs its command, and the identifiers the commands bring in are new. */
  ghost predicate Executes(s: State, p: Program) {
    && (forall c :: c in s.clients && s.clients[c].job.update.Some? ==>
          c in p.commands && WellFormed(p.commands[c]) && Performs(s.clients[c].job.update.value, p.machine, p.commands[c]))
    && (forall c :: c in p.commands && Normalize(s.base).Ok? ==>
          NewIds(p.commands[c]) !! IdsOf(Normalize(s.base).value))
    && (forall c, d :: c in p.commands && d in p.commands && c != d ==> NewIds(p.commands[c]) !! NewIds(p.commands[d]))
  }

  ghost predicate GoodFile(machine: Machine, file: Option<Stored>) {
    Normalize(file).Ok? && Good(machine, Normalize(file).value)
  }

  // What the committed commands have brought in.
  ghost function Issued(p: Program, history: seq<Commit>): set<Id> {
    if history == [] then {}
    else
      var c := history[|history| - 1].client;
      Issued(p, history[..|history| - 1]) + if c in p.commands then NewIds(p.commands[c]) else {}
  }

  lemma {:induction false} IssuedByClients(p: Program, history: seq<Commit>, x: Id) returns (k: nat)
    requires x in Issued(p, history)
    ensures k < |history| && history[k].client in p.commands && x in NewIds(p.commands[history[k].client])
    decreases |history|
  {
    var last := |history| - 1;
    if x in Issued(p, history[..last]) {
      k := IssuedByClients(p, history[..last], x);
    } else {
      k := last;
    }
  }

  // The next committed command meets none of its new identifiers in the database.
  lemma NewToAll(states: seq<State>, events: seq<Event>, i: nat, p: Program, k: nat, db: Database)
    requires Run(states, events) && i < |states| && Executes(states[i], p) && k < |states[i].history|
    requires Normalize(states[i].base).Ok?
    requires IdsOf(db) <= IdsOf(Normalize(states[i].base).value) + Issued(p, states[i].history[..k])
    ensures var c := states[i].history[k].client; c in p.commands && NewIds(p.commands[c]) !! IdsOf(db)
  {
    var h := states[i].history;
    CommitIsOwn(states, events, i, k);
    forall x | x in NewIds(p.commands[h[k].client]) && x in Issued(p, h[..k]) ensures false {
      var j := IssuedByClients(p, h[..k], x);
      CommitsOnce(states, events, i, j, k);
    }
  }

  // What holds after the first `k` commits, with the identifiers there can be by then.
  ghost predicate GoodBy(p: Program, ids: set<Id>, history: seq<Commit>, k: nat, db: Database) {
    Good(p.machine, db) && (k <= |history| ==> IdsOf(db) <= ids + Issued(p, history[..k]))
  }

  lemma IssuedGrows(p: Program, history: seq<Commit>, k: nat)
    requires k < |history|
    ensures Issued(p, history[..k + 1]) ==
            Issued(p, history[..k]) + if history[k].client in p.commands then NewIds(p.commands[history[k].client]) else {}
  {
    assert history[..k + 1][..k] == history[..k];
  }

  lemma CommandCarries(states: seq<State>, events: seq<Event>, i: nat, p: Program, k: nat, db: Database)
    requires Run(states, events) && i < |states| && Executes(states[i], p) && Sane(p.machine) && k < |states[i].history|
    requires Normalize(states[i].base).Ok?
    requires GoodBy(p, IdsOf(Normalize(states[i].base).value), states[i].history, k, db)
    ensures var ids := IdsOf(Normalize(states[i].base).value); var h := states[i].history;
            && GoodBy(p, ids, h, k + 1, db)
            && (h[k].update(db).Ok? ==> GoodBy(p, ids, h, k + 1, h[k].update(db).value))
  {
    var h := states[i].history;
    CommitIsOwn(states, events, i, k);
    NewToAll(states, events, i, p, k, db);
    IssuedGrows(p, h, k);
    var c := p.commands[h[k].client];
    assert h[k].update(db) == Perform(p.machine, c, db);
    if h[k].update(db).Ok? {
      PerformKeepsGood(p.machine, c, db);
    }
  }

  ghost function GoodThrough(p: Program, ids: set<Id>, history: seq<Commit>): (nat, Database) -> bool {
    (k: nat, db: Database) => GoodBy(p, ids, history, k, db)
  }

  lemma EachCarries(states: seq<State>, events: seq<Event>, i: nat, p: Program, k: nat, db: Database)
    requires Run(states, events) && i < |states| && Executes(states[i], p) && Sane(p.machine) && k < |states[i].history|
    requires Normalize(states[i].base).Ok?
    ensures var ids := IdsOf(Normalize(states[i].base).value); var h := states[i].history;
            Carries(h[k].update, GoodThrough(p, ids, h), k, db)
  {
    if GoodBy(p, IdsOf(Normalize(states[i].base).value), states[i].history, k, db) {
      CommandCarries(states, events, i, p, k, db);
    }
  }

  lemma CommitsStayGood(states: seq<State>, events: seq<Event>, i: nat, p: Program, n: nat)
    requires Run(states, events) && i < |states| && n <= |states[i].history|
    requires Sane(p.machine) && Executes(states[i], p) && GoodFile(p.machine, states[0].file)
    ensures GoodFile(p.machine, AtomicRun(states[0].file, states[i].history[..n]))
    ensures var file := AtomicRun(states[0].file, states[i].history[..n]);
            file == states[0].file
            || (file.Some? && file.value.version == CURRENT_VERSION && Normalize(file) == Ok(file.value.db))
  {
    ReachableInv(states, events, i);
    assert states[i].base == states[0].file;
    var h := states[i].history;
    var good := GoodThrough(p, IdsOf(Normalize(states[0].file).value), h);
    forall k: nat, db | k < n ensures Carries(h[..n][k].update, good, k, db) {
      EachCarries(states, events, i, p, k, db);
    }
    InvariantsCarryOver(states[0].file, h[..n], good);
  }

  /**
   * At every point of every run of commands the file has no broken reference, distinct identities and
   * shaped records; every stored container resolves or has a disabled proxy.
   */
  lemma FileStaysWhole(states: seq<State>, events: seq<Event>, i: nat, p: Program)
    requires Run(states, events) && i < |states|
    requires Sane(p.machine) && Executes(states[i], p) && GoodFile(p.machine, states[0].file)
    ensures GoodFile(p.machine, states[i].file)
    ensures var db := Normalize(states[i].file).value;
            && RefsWhole(db) && Shaped(db)
            && forall c :: c in db.containers ==> Resolve(db, c).error in {None, Some(PROXY_PROFILE_DISABLED)}
  {
    UpdatesAreAtomic(states, events, 0, i);
    var h := states[i].history;
    assert h[..|h|] == h;
    CommitsStayGood(states, events, i, p, |h|);
    var db := Normalize(states[i].file).value;
    forall c | c in db.containers ensures Resolve(db, c).error in {None, Some(PROXY_PROFILE_DISABLED)} {
      ContainerResolves(db, c);
    }
  }

  /** Once written, the file is at every point exactly what the next load makes of it. */
  lemma FileIsAsLoaded(states: seq<State>, events: seq<Event>, i: nat, p: Program)
    requires Run(states, events) && i < |states|
    requires Sane(p.machine) && Executes(states[i], p) && GoodFile(p.machine, states[0].file)
    ensures states[i].file == states[0].file
            || (states[i].file.Some? && states[i].file.value.version == CURRENT_VERSION
                && Normalize(states[i].file) == Ok(states[i].file.value.db))
  {
    UpdatesAreAtomic(states, events, 0, i);
    var h := states[i].history;
    assert h[..|h|] == h;
    CommitsStayGood(states, events, i, p, |h|);
  }

  /** And every database that a load answers in such a run is as good as the file. */
  lemma LoadsAreWhole(states: seq<State>, events: seq<Event>, i: nat, c: ClientId, p: Program)
    requires Run(states, events) && i < |states|
    requires Sane(p.machine) && Executes(states[i], p) && GoodFile(p.machine, states[0].file)
    requires c in states[i].clients && states[i].clients[c].phase.Answered?
    ensures Good(p.machine, states[i].clients[c].phase.db)
  {
    LoadsSeeWholeTransactions(states, events, i, c);
    CommitsStayGood(states, events, i, p, states[i].clients[c].seen);
  }

  /** A store without a file is good to start from. */
  lemma NewStoreIsGood(machine: Machine)
    ensures GoodFile(machine, None)
  {
    EmptyIsGood(machine);
  }
}
