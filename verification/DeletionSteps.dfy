/** The invariant of the certificate directories, and what each single effect does to it. */
module DeletionSteps {
  import opened Prelude
  import opened Records
  import opened CertificateSpec
  import opened DeletionProtocol

  predicate AtHome(m: CertificateMap, f: Files, id: Id)
    requires id in m
  {
    id in f.home && f.home[id] == Some(m[id].fingerprint)
  }

  predicate StagedFor(m: CertificateMap, f: Files, id: Id, op: Id)
    requires id in m
  {
    op in f.tombs && f.tombs[op].cert == id && op in f.staged && f.staged[op] == Some(m[id].fingerprint)
  }

  /** A record's bytes are in its own directory or in the staged directory of a tombstone naming it. */
  ghost predicate Kept(m: CertificateMap, f: Files, id: Id)
    requires id in m
  {
    AtHome(m, f, id) || exists op :: StagedFor(m, f, id, op)
  }

  ghost predicate BytesKept(m: CertificateMap, f: Files) {
    forall id :: id in m ==> Kept(m, f, id)
  }

  /** A certificate that is deleted leaves no directory in its own place. */
  ghost predicate NoRemains(m: CertificateMap, f: Files) {
    forall op :: op in f.target && f.target[op] !in m ==> f.target[op] !in f.home
  }

  // One tombstone per certificate, and none missing for a staged directory.
  ghost predicate TombsInv(f: Files) {
    && (forall op :: op in f.tombs ==> op in f.target && f.target[op] == f.tombs[op].cert)
    && (forall op, q :: op in f.tombs && q in f.tombs && f.tombs[op].cert == f.tombs[q].cert ==> op == q)
    && (forall op :: op in f.staged ==> op in f.tombs)
    && "" !in f.target
  }

  // A directory is in one place only.
  ghost predicate DirsInv(m: CertificateMap, f: Files) {
    && (forall op :: op in f.target ==> f.target[op] in f.issued && f.target[op] !in f.imports)
    && (forall op :: op in f.staged && op in f.target ==> f.target[op] !in f.home)
    && (forall id :: id in f.imports ==> id in f.issued && id !in m && id in f.home && f.home[id] == Some(f.imports[id]))
    && m.Keys <= f.issued && f.home.Keys <= f.issued
  }

  ghost predicate FilesInv(m: CertificateMap, f: Files) {
    TombsInv(f) && DirsInv(m, f)
  }

  // Nothing of this certificate moved between its own directory and the staged directory of `op`.
  predicate Untouched(m: CertificateMap, f: Files, n: CertificateMap, g: Files, id: Id, op: Id)
    requires id in n
  {
    && id in m && n[id].fingerprint == m[id].fingerprint
    && (id in f.home ==> id in g.home && g.home[id] == f.home[id])
    && (op in f.staged && op in f.tombs && f.tombs[op].cert == id ==>
          op in g.staged && g.staged[op] == f.staged[op] && op in g.tombs && g.tombs[op].cert == id)
  }

  lemma BytesStay(m: CertificateMap, f: Files, n: CertificateMap, g: Files, id: Id)
    requires id in n && (id in m ==> Kept(m, f, id)) && forall op :: Untouched(m, f, n, g, id, op)
    ensures Kept(n, g, id)
  {
    assert Untouched(m, f, n, g, id, "");
    if !AtHome(m, f, id) {
      var op :| StagedFor(m, f, id, op);
      assert Untouched(m, f, n, g, id, op) && StagedFor(n, g, id, op);
    }
  }

  lemma BytesKeptThrough(m: CertificateMap, f: Files, n: CertificateMap, g: Files)
    requires BytesKept(m, f) && forall id, op :: id in n ==> Untouched(m, f, n, g, id, op)
    ensures BytesKept(n, g)
  {
    forall id | id in n ensures Kept(n, g, id) {
      assert Untouched(m, f, n, g, id, "");
      BytesStay(m, f, n, g, id);
    }
  }

  // The only tombstone that can name this certificate.
  lemma OnlyTomb(m: CertificateMap, f: Files, op: Id, id: Id)
    requires TombsInv(f) && op in f.tombs && f.tombs[op].cert == id && id in m && Kept(m, f, id)
    ensures AtHome(m, f, id) || StagedFor(m, f, id, op)
  {
    if !AtHome(m, f, id) {
      var q :| StagedFor(m, f, id, q);
    }
  }

  // The order in which things are kept: the files, and the bytes in them.
  ghost predicate Sound(m: CertificateMap, f: Files) {
    FilesInv(m, f) && BytesKept(m, f)
  }

  // An import places its directory.
  lemma PlacedKeeps(m: CertificateMap, f: Files, id: Id, x: Fingerprint)
    requires Sound(m, f) && id !in f.issued
    ensures Sound(m, Placed(f, id, x))
  {
    BytesKeptThrough(m, f, m, Placed(f, id, x));
  }

  // The import's record is written.
  lemma ImportedKeeps(m: CertificateMap, f: Files, id: Id, now: Time)
    requires Sound(m, f) && id in f.imports
    ensures Sound(m[id := ImportedCertificate(id, f.imports[id], now)], ImportEnded(f, id))
  {
    var n, g := m[id := ImportedCertificate(id, f.imports[id], now)], ImportEnded(f, id);
    forall k | k in n ensures Kept(n, g, k) {
      if k != id {
        assert forall op :: Untouched(m, f, n, g, k, op);
        BytesStay(m, f, n, g, k);
      }
    }
  }

  // The import's write failed and its directory went.
  lemma RolledBackKeeps(m: CertificateMap, f: Files, id: Id)
    requires Sound(m, f) && id in f.imports
    ensures Sound(m, ImportEnded(HomeWiped(f, id), id))
  {
    BytesKeptThrough(m, f, m, ImportEnded(HomeWiped(f, id), id));
  }

  // The rollback failed half way.
  lemma HalfRolledBackKeeps(m: CertificateMap, f: Files, id: Id)
    requires Sound(m, f) && id in f.imports
    ensures Sound(m, ImportEnded(AfterFailedWipe(f, id), id))
  {
    BytesKeptThrough(m, f, m, ImportEnded(AfterFailedWipe(f, id), id));
  }

  // The importer stopped.
  lemma ImportStoppedKeeps(m: CertificateMap, f: Files, id: Id)
    requires Sound(m, f) && id in f.imports
    ensures Sound(m, ImportEnded(f, id))
  {
    BytesKeptThrough(m, f, m, ImportEnded(f, id));
  }

  // A tombstone is written.
  lemma TombedKeeps(m: CertificateMap, f: Files, op: Id, id: Id)
    requires Sound(m, f) && op !in f.target && op != "" && id in m && !Named(f, id, "")
    ensures Sound(m, Tombed(f, op, id))
  {
    BytesKeptThrough(m, f, m, Tombed(f, op, id));
  }

  // The directory is renamed into staging, and the bytes move along with it.
  lemma StagedKeeps(m: CertificateMap, f: Files, op: Id, id: Id)
    requires Sound(m, f) && op in f.tombs && f.tombs[op].cert == id && id in f.home && id in m
    ensures Sound(m, MovedToStaging(f, op, id))
  {
    var g := MovedToStaging(f, op, id);
    assert Kept(m, f, id);
    OnlyTomb(m, f, op, id);
    assert StagedFor(m, g, id, op);
    forall k | k in m && k != id ensures Kept(m, g, k) {
      assert forall q :: Untouched(m, f, m, g, k, q);
      BytesStay(m, f, m, g, k);
    }
  }

  // The record goes.
  lemma DroppedKeeps(m: CertificateMap, f: Files, id: Id)
    requires Sound(m, f)
    ensures Sound(m - {id}, f)
  {
    BytesKeptThrough(m, f, m - {id}, f);
  }

  // The staged directory is renamed back: the bytes are where the record says.
  lemma ReturnedKeeps(m: CertificateMap, f: Files, op: Id, id: Id)
    requires Sound(m, f) && op in f.staged && f.target[op] == id && id !in f.home
    ensures Sound(m, MovedHome(f, op, id))
  {
    var g := MovedHome(f, op, id);
    if id in m {
      assert Kept(m, f, id);
      OnlyTomb(m, f, op, id);
      assert AtHome(m, g, id);
    }
    forall k | k in m && k != id ensures Kept(m, g, k) {
      assert forall q :: Untouched(m, f, m, g, k, q);
      BytesStay(m, f, m, g, k);
    }
  }

  // A directory of a certificate without a record is removed, or its removal stops half way.
  lemma WipedKeeps(m: CertificateMap, f: Files, op: Id)
    requires Sound(m, f) && op in f.target && f.target[op] !in m
    ensures Sound(m, StagedWiped(f, op))
  {
    BytesKeptThrough(m, f, m, StagedWiped(f, op));
  }

  lemma HalfWipedKeeps(m: CertificateMap, f: Files, op: Id)
    requires Sound(m, f) && op in f.target && f.target[op] !in m
    ensures Sound(m, AfterFailedPurge(f, op))
  {
    BytesKeptThrough(m, f, m, AfterFailedPurge(f, op));
  }

  lemma HomeWipedKeeps(m: CertificateMap, f: Files, op: Id, id: Id)
    requires Sound(m, f) && op in f.target && f.target[op] == id && id !in m
    ensures Sound(m, HomeWiped(f, id)) && Sound(m, AfterFailedWipe(f, id))
  {
    BytesKeptThrough(m, f, m, HomeWiped(f, id));
    BytesKeptThrough(m, f, m, AfterFailedWipe(f, id));
  }

  // A tombstone goes.
  lemma UntombedKeeps(m: CertificateMap, f: Files, op: Id)
    requires Sound(m, f) && op !in f.staged
    ensures Sound(m, Untombed(f, op))
  {
    BytesKeptThrough(m, f, m, Untombed(f, op));
  }

  // A tombstone is marked as failed.
  lemma ReportedKeeps(m: CertificateMap, f: Files, op: Id)
    requires Sound(m, f)
    ensures Sound(m, AfterReport(f, op))
  {
    BytesKeptThrough(m, f, m, AfterReport(f, op));
  }
}
