/**
 * The page references handed to automation clients: each runtime's table from references to browser
 * targets, and the page contexts kept beside it. Calls are serialized, as the adapter does.
 */
module PageReferences {
  import opened Prelude

  // References are fresh identifiers; the source counts them up.
  type Ref = nat
  type TargetId = string
  type Context = nat

  // A page's context and whether its one connection attempt succeeded.
  datatype Attempt = Attempt(context: Context, connected: bool)

  // What a reference was issued for, for ever.
  datatype Binding = Binding(runtime: nat, target: TargetId)

  datatype Target = Target(id: TargetId, isPage: bool)

  datatype PageError = INVALID_PAGE_ID | PAGE_NOT_FOUND | ID_UNAVAILABLE | INVALID_URL | CONTEXT_FAILED

  /** A runtime's tables at one moment, and everything issued so far by the shared source. */
  datatype Table = Table(runtime: nat, pages: map<Ref, TargetId>, contexts: map<TargetId, Attempt>,
                         issued: map<Ref, Binding>)

  ghost predicate Injective(pages: map<Ref, TargetId>) {
    forall a, b :: a in pages && b in pages && pages[a] == pages[b] ==> a == b
  }

  ghost predicate ValidTable(t: Table) {
    && Injective(t.pages)
    && (forall ref :: ref in t.pages ==> ref in t.issued && t.issued[ref] == Binding(t.runtime, t.pages[ref]))
    && (forall id :: id in t.contexts ==> id in t.pages.Values)
  }

  /** Nothing issued is forgotten, and a reference enters the table only when it is issued. */
  ghost predicate Follows(t: Table, u: Table) {
    && u.runtime == t.runtime && ValidTable(u)
    && (forall ref :: ref in t.issued ==> ref in u.issued && u.issued[ref] == t.issued[ref])
    && (forall ref :: ref in u.pages && ref in t.issued ==> ref in t.pages)
  }

  function LiveTargets(targets: seq<Target>): (live: set<TargetId>)
    ensures forall id :: id in live <==> exists k :: 0 <= k < |targets| && targets[k] == Target(id, true)
  {
    set x | x in targets && x.isPage :: x.id
  }

  class IdSource {
    var next: Ref
    ghost var issued: map<Ref, Binding>

    constructor ()
      ensures next == 0 && issued == map[] && Valid()
    {
      next := 0;
      issued := map[];
    }

    ghost predicate Valid()
      reads this
    {
      forall ref :: ref in issued ==> ref < next
    }

    method NewId(fails: bool, ghost binding: Binding) returns (id: Option<Ref>)
      requires Valid()
      modifies this
      ensures Valid()
      ensures fails <==> id.None?
      ensures id.None? ==> next == old(next) && issued == old(issued)
      ensures id.Some? ==> id.value !in old(issued) && issued == old(issued)[id.value := binding]
    {
      if fails {
        return None;
      }
      id := Some(next);
      issued := issued[next := binding];
      next := next + 1;
    }
  }

  class AutomationRuntime {
    const name: nat
    const ids: IdSource
    var pages: map<Ref, TargetId>
    var contexts: map<TargetId, Attempt>

    constructor (name: nat, ids: IdSource)
      ensures this.name == name && this.ids == ids && pages == map[] && contexts == map[]
    {
      this.name, this.ids := name, ids;
      pages, contexts := map[], map[];
    }

    ghost function State(): Table
      reads this, ids
    {
      Table(name, pages, contexts, ids.issued)
    }

    ghost predicate Valid()
      reads this, ids
    {
      ids.Valid() && ValidTable(State())
    }

    // The reference of a target: the one it has, or a new one.
    method PageRef(target: TargetId, fails: bool) returns (r: Result<Ref, PageError>)
      requires Valid()
      modifies this`pages, ids
      ensures Valid() && Follows(old(State()), State())
      ensures target in old(pages).Values ==> pages == old(pages) && r.Ok?
      ensures target !in old(pages).Values ==> (r.Ok? <==> !fails)
      ensures r.Ok? ==> r.value in pages && pages[r.value] == target && pages == old(pages)[r.value := target]
      ensures r.Err? ==> pages == old(pages) && r.error == ID_UNAVAILABLE
      ensures forall ref :: ref in old(pages) ==> ref in pages && pages[ref] == old(pages)[ref]
    {
      var left := pages.Keys;
      while left != {}
        invariant left <= pages.Keys && forall ref :: ref in pages && ref !in left ==> pages[ref] != target
        decreases |left|
      {
        var ref :| ref in left;
        if pages[ref] == target {
          return Ok(ref);
        }
        left := left - {ref};
      }
      var id := ids.NewId(fails, Binding(name, target));
      if id.None? {
        return Err(ID_UNAVAILABLE);
      }
      pages := pages[id.value := target];
      forall t | t in contexts ensures t in pages.Values {
        var ref :| ref in old(pages) && old(pages)[ref] == t;
        assert ref in pages && pages[ref] == t;
      }
      r := Ok(id.value);
    }

    // References for all live pages, in order; what could be added stays even when an ID is missing.
    method ReferLive(targets: seq<Target>, fails: seq<bool>) returns (r: Option<seq<Ref>>, live: set<TargetId>)
      requires Valid() && |fails| == |targets|
      modifies this`pages, ids
      ensures Valid() && Follows(old(State()), State())
      ensures forall ref :: ref in old(pages) ==> ref in pages && pages[ref] == old(pages)[ref]
      ensures r.Some? ==> live == LiveTargets(targets) && live <= pages.Values && Lists(r.value, targets, pages)
      ensures (forall k :: 0 <= k < |fails| ==> !fails[k]) ==> r.Some?
    {
      var refs: seq<Ref> := [];
      live := {};
      for i := 0 to |targets|
        invariant Valid() && Follows(old(State()), State())
        invariant forall ref :: ref in old(pages) ==> ref in pages && pages[ref] == old(pages)[ref]
        invariant live == LiveTargets(targets[..i]) && live <= pages.Values && Lists(refs, targets[..i], pages)
      {
        LiveGrows(targets, i);
        if !targets[i].isPage {
          continue;
        }
        ghost var before, table := pages, State();
        var ref := PageRef(targets[i].id, fails[i]);
        FollowsOn(old(State()), table, State());
        if ref.Err? {
          return None, live;
        }
        ListsOn(refs, targets, i, before, pages, ref.value);
        ValuesGrow(before, pages, live);
        live := live + {targets[i].id};
        refs := refs + [ref.value];
        assert pages[ref.value] == targets[i].id;
      }
      assert targets[..|targets|] == targets;
      r := Some(refs);
    }

    /**
     * listPages. An ID that cannot be had stops the listing with what it added so far; otherwise the
     * table then holds exactly the live pages, and a page that was in it keeps its reference.
     */
    method ListPages(targets: seq<Target>, fails: seq<bool>) returns (r: Option<seq<Ref>>, cancelled: set<TargetId>)
      requires Valid() && |fails| == |targets|
      modifies this, ids
      ensures Valid() && Follows(old(State()), State())
      ensures forall ref :: ref in old(pages) && (r.None? || old(pages)[ref] in LiveTargets(targets)) ==>
                              ref in pages && pages[ref] == old(pages)[ref]
      ensures r.Some? ==> pages.Values == LiveTargets(targets) && Lists(r.value, targets, pages)
      ensures (forall k :: 0 <= k < |fails| ==> !fails[k]) ==> r.Some?
      ensures contexts == old(contexts) - cancelled
      ensures forall t :: t in cancelled <==> r.Some? && t in old(contexts) && t !in LiveTargets(targets)
    {
      var live;
      cancelled := {};
      r, live := ReferLive(targets, fails);
      if r.None? {
        return;
      }
      ghost var before, table := pages, State();
      cancelled := Prune(live);
      FollowsOn(old(State()), table, State());
      ListsThrough(r.value, targets, before, pages, live);
    }

    // Drops the references of pages that are gone, with their contexts.
    method Prune(live: set<TargetId>) returns (cancelled: set<TargetId>)
      requires Valid() && live <= pages.Values
      modifies this
      ensures Valid() && Follows(old(State()), State())
      ensures KeepsLive(old(pages), pages, live, {}) && pages.Values == live
      ensures contexts == old(contexts) - cancelled
      ensures forall t :: t in cancelled <==> t in old(contexts) && t !in live
    {
      cancelled := {};
      var left := pages.Keys;
      while left != {}
        invariant left <= pages.Keys && KeepsLive(old(pages), pages, live, left)
        invariant ContextsFollow(old(contexts), contexts, cancelled, live, pages.Values)
        decreases |left|
      {
        var ref :| ref in left;
        var target := pages[ref];
        PruneStep(old(State()), pages, contexts, cancelled, live, left, ref);
        left := left - {ref};
        if target !in live {
          pages := pages - {ref};
          if target in contexts {
            contexts := contexts - {target};
            cancelled := cancelled + {target};
          }
        }
      }
      OnlyLiveLeft(old(pages), pages, live);
      PrunedFollows(old(State()), State(), live, cancelled);
    }

    /**
     * targetForPage. What a caller gets is the page this runtime issued the reference for, which no
     * other reference here names; a reference of another runtime is refused.
     */
    method TargetForPage(page: Ref, wellFormed: bool) returns (r: Result<TargetId, PageError>)
      requires Valid()
      ensures r.Ok? ==> page in ids.issued && ids.issued[page] == Binding(name, r.value)
      ensures r.Ok? ==> page in pages && forall ref :: ref in pages && pages[ref] == r.value ==> ref == page
      ensures r.Err? <==> !wellFormed || page !in pages
      ensures r.Err? ==> r.error == if wellFormed then PAGE_NOT_FOUND else INVALID_PAGE_ID
      ensures page in ids.issued && ids.issued[page].runtime != name ==> r.Err?
    {
      if !wellFormed {
        return Err(INVALID_PAGE_ID);
      }
      if page !in pages {
        return Err(PAGE_NOT_FOUND);
      }
      r := Ok(pages[page]);
    }

    /**
     * pageContext. The context of a page is made and connected once: a later call finds the same
     * context, and one whose connection failed stays and fails again without another attempt.
     */
    method PageContext(page: Ref, wellFormed: bool, created: Attempt) returns (r: Result<Context, PageError>)
      requires Valid()
      modifies this`contexts
      ensures Valid() && Follows(old(State()), State())
      ensures !wellFormed || page !in pages ==> r.Err? && contexts == old(contexts)
      ensures wellFormed && page in pages ==>
                && pages[page] in contexts && contexts == old(contexts)[pages[page] := contexts[pages[page]]]
                && (if pages[page] in old(contexts) then contexts == old(contexts) else contexts[pages[page]] == created)
                && r == if contexts[pages[page]].connected then Ok(contexts[pages[page]].context) else Err(CONTEXT_FAILED)
    {
      var target := TargetForPage(page, wellFormed);
      if target.Err? {
        return Err(target.error);
      }
      if target.value !in contexts {
        contexts := contexts[target.value := created];
      }
      var attempt := contexts[target.value];
      r := if attempt.connected then Ok(attempt.context) else Err(CONTEXT_FAILED);
    }

    method OpenPage(urlAllowed: bool, created: Option<TargetId>, fails: bool) returns (r: Result<Ref, PageError>)
      requires Valid()
      modifies this`pages, ids
      ensures Valid() && Follows(old(State()), State())
      ensures r.Ok? ==> urlAllowed && created.Some? && r.value in pages && pages[r.value] == created.value
      ensures urlAllowed && created.Some? && !fails ==> r.Ok?
      ensures forall ref :: ref in old(pages) ==> ref in pages && pages[ref] == old(pages)[ref]
      ensures r.Err? ==> && pages == old(pages)
                         && r.error == if !urlAllowed then INVALID_URL else if created.None? then CONTEXT_FAILED
                                       else ID_UNAVAILABLE
    {
      if !urlAllowed {
        return Err(INVALID_URL);
      }
      if created.None? {
        return Err(CONTEXT_FAILED);
      }
      r := PageRef(created.value, fails);
    }
  }

  // The contexts of targets still in the table; the others were cancelled.
  ghost predicate ContextsFollow(before: map<TargetId, Attempt>, after: map<TargetId, Attempt>, cancelled: set<TargetId>,
                                 live: set<TargetId>, targets: set<TargetId>)
  {
    && after == before - cancelled
    && (forall t :: t in cancelled ==> t in before && t !in live)
    && (forall t :: t in after ==> t in targets)
  }

  // One turn of the pruning loop, for each of its three ways.
  lemma PruneStep(t: Table, pages: map<Ref, TargetId>, contexts: map<TargetId, Attempt>, cancelled: set<TargetId>,
                  live: set<TargetId>, left: set<Ref>, ref: Ref)
    requires ValidTable(t) && KeepsLive(t.pages, pages, live, left) && ref in left && left <= pages.Keys
    requires ContextsFollow(t.contexts, contexts, cancelled, live, pages.Values)
    ensures pages[ref] in live ==> KeepsLive(t.pages, pages, live, left - {ref})
    ensures pages[ref] !in live ==> KeepsLive(t.pages, pages - {ref}, live, left - {ref})
    ensures pages[ref] !in live && pages[ref] in contexts ==>
              ContextsFollow(t.contexts, contexts - {pages[ref]}, cancelled + {pages[ref]}, live, (pages - {ref}).Values)
    ensures pages[ref] !in live && pages[ref] !in contexts ==>
              ContextsFollow(t.contexts, contexts, cancelled, live, (pages - {ref}).Values)
  {
    if pages[ref] !in live {
      OneReferenceEach(t, pages, ref);
    }
  }

  lemma PrunedFollows(t: Table, u: Table, live: set<TargetId>, cancelled: set<TargetId>)
    requires ValidTable(t) && u.runtime == t.runtime && u.issued == t.issued
    requires KeepsLive(t.pages, u.pages, live, {}) && u.pages.Values == live
    requires ContextsFollow(t.contexts, u.contexts, cancelled, live, live)
    ensures Follows(t, u) && forall id :: id in cancelled <==> id in t.contexts && id !in live
  {
  }

  // What is left of `before`: the entries of live pages, and those not looked at yet.
  ghost predicate KeepsLive(before: map<Ref, TargetId>, after: map<Ref, TargetId>, live: set<TargetId>, left: set<Ref>) {
    && (forall ref :: ref in after <==> ref in before && (before[ref] in live || ref in left))
    && (forall ref :: ref in after ==> after[ref] == before[ref])
  }

  // Without its reference a target is in the table no more, and the other targets still are.
  lemma OneReferenceEach(t: Table, pages: map<Ref, TargetId>, ref: Ref)
    requires ValidTable(t) && ref in pages && forall r :: r in pages ==> r in t.pages && pages[r] == t.pages[r]
    ensures (pages - {ref}).Values == pages.Values - {pages[ref]}
  {
    var rest := pages - {ref};
    forall id | id in pages.Values && id != pages[ref] ensures id in rest.Values {
      var r :| r in pages && pages[r] == id;
      assert r in rest && rest[r] == id;
    }
  }

  lemma OnlyLiveLeft(before: map<Ref, TargetId>, after: map<Ref, TargetId>, live: set<TargetId>)
    requires KeepsLive(before, after, live, {}) && live <= before.Values
    ensures after.Values == live
  {
    forall id | id in live ensures id in after.Values {
      var ref :| ref in before && before[ref] == id;
      assert ref in after && after[ref] == id;
    }
  }

  // The references of the listed pages, in order.
  ghost predicate Lists(refs: seq<Ref>, targets: seq<Target>, pages: map<Ref, TargetId>) {
    && |refs| == |PageIds(targets)|
    && forall k :: 0 <= k < |refs| ==> refs[k] in pages && pages[refs[k]] == PageIds(targets)[k]
  }

  function PageIds(targets: seq<Target>): seq<TargetId> {
    if targets == [] then []
    else
      var last := targets[|targets| - 1];
      PageIds(targets[..|targets| - 1]) + if last.isPage then [last.id] else []
  }

  /** Exactly the pages among the targets, in their order. */
  lemma {:induction false} PagesInOrder(before: seq<Target>, t: Target, after: seq<Target>)
    ensures PageIds(before + [t] + after) == PageIds(before) + (if t.isPage then [t.id] else []) + PageIds(after)
    decreases |after|
  {
    if after == [] {
      assert before + [t] + after == before + [t] && (before + [t])[..|before|] == before;
    } else {
      var front := after[..|after| - 1];
      PagesInOrder(before, t, front);
      assert (before + [t] + after)[..|before + [t] + after| - 1] == before + [t] + front;
    }
  }

  lemma LiveGrows(targets: seq<Target>, i: nat)
    requires i < |targets|
    ensures LiveTargets(targets[..i + 1]) == LiveTargets(targets[..i]) + if targets[i].isPage then {targets[i].id} else {}
    ensures PageIds(targets[..i + 1]) == PageIds(targets[..i]) + if targets[i].isPage then [targets[i].id] else []
  {
    assert targets[..i + 1] == targets[..i] + [targets[i]] && targets[..i + 1][..i] == targets[..i];
  }

  lemma ValuesGrow(before: map<Ref, TargetId>, after: map<Ref, TargetId>, ids: set<TargetId>)
    requires ids <= before.Values && forall ref :: ref in before ==> ref in after && after[ref] == before[ref]
    ensures ids <= after.Values
  {
    forall id | id in ids ensures id in after.Values {
      var ref :| ref in before && before[ref] == id;
      assert ref in after && after[ref] == id;
    }
  }

  lemma {:induction false} PageIdsAreLive(targets: seq<Target>)
    ensures forall id :: id in PageIds(targets) ==> id in LiveTargets(targets)
    decreases |targets|
  {
    if targets != [] {
      PageIdsAreLive(targets[..|targets| - 1]);
      assert targets == targets[..|targets| - 1] + [targets[|targets| - 1]];
    }
  }

  lemma ListsOn(refs: seq<Ref>, targets: seq<Target>, i: nat, before: map<Ref, TargetId>, after: map<Ref, TargetId>,
                ref: Ref)
    requires i < |targets| && targets[i].isPage && Lists(refs, targets[..i], before)
    requires forall r :: r in before ==> r in after && after[r] == before[r]
    requires ref in after && after[ref] == targets[i].id
    ensures Lists(refs + [ref], targets[..i + 1], after)
  {
    LiveGrows(targets, i);
  }

  lemma ListsThrough(refs: seq<Ref>, targets: seq<Target>, before: map<Ref, TargetId>, after: map<Ref, TargetId>,
                     live: set<TargetId>)
    requires Lists(refs, targets, before) && live == LiveTargets(targets) && KeepsLive(before, after, live, {})
    ensures Lists(refs, targets, after)
  {
    PageIdsAreLive(targets);
  }

  lemma FollowsOn(t: Table, u: Table, v: Table)
    requires Follows(t, u) && Follows(u, v)
    ensures Follows(t, v)
  {
  }

  // ---- all runtimes over whole histories ----

  datatype Pages = Pages(pages: map<Ref, TargetId>, contexts: map<TargetId, Attempt>)

  /** The runtimes that are open, every runtime there ever was, and what the shared source has issued. */
  datatype World = World(open: map<nat, Pages>, started: set<nat>, issued: map<Ref, Binding>)

  datatype WorldEvent = Starts(runtime: nat) | Moves(runtime: nat) | Stops(runtime: nat)

  function TableOf(w: World, runtime: nat): Table
    requires runtime in w.open
  {
    Table(runtime, w.open[runtime].pages, w.open[runtime].contexts, w.issued)
  }

  // A call on one runtime changes that runtime's tables and the source, as every method above says.
  ghost predicate WorldNext(w: World, e: WorldEvent, v: World) {
    match e
    case Starts(r) =>
      r !in w.started && v == w.(open := w.open[r := Pages(map[], map[])], started := w.started + {r})
    case Moves(r) =>
      && r in w.open && r in v.open && v.open == w.open[r := v.open[r]] && v.started == w.started
      && Follows(TableOf(w, r), TableOf(v, r))
    case Stops(r) => r in w.open && v == w.(open := w.open - {r})
  }

  ghost predicate WorldStep(worlds: seq<World>, events: seq<WorldEvent>, i: nat)
    requires |worlds| == |events| + 1
  {
    i < |events| ==> WorldNext(worlds[i], events[i], worlds[i + 1])
  }

  ghost predicate WorldRun(worlds: seq<World>, events: seq<WorldEvent>) {
    && |worlds| == |events| + 1 && worlds[0] == World(map[], {}, map[])
    && forall i: nat :: WorldStep(worlds, events, i)
  }

  ghost predicate ValidWorld(w: World) {
    w.open.Keys <= w.started && forall r :: r in w.open ==> ValidTable(TableOf(w, r))
  }

  // What one runtime issues leaves the tables of the others valid.
  lemma WorldNextKeepsValid(w: World, e: WorldEvent, v: World)
    requires ValidWorld(w) && WorldNext(w, e, v)
    ensures ValidWorld(v)
    ensures forall ref :: ref in w.issued ==> ref in v.issued && v.issued[ref] == w.issued[ref]
  {
    forall r | r in v.open ensures ValidTable(TableOf(v, r)) {
      if r in w.open {
        assert ValidTable(TableOf(w, r));
      }
    }
  }

  /** In every run the tables of all runtimes are valid: one-to-one, contexts within, and bound to their runtime. */
  lemma {:induction false} TablesStayValid(worlds: seq<World>, events: seq<WorldEvent>, i: nat)
    requires WorldRun(worlds, events) && i < |worlds|
    ensures ValidWorld(worlds[i])
  {
    if i > 0 {
      TablesStayValid(worlds, events, i - 1);
      assert WorldStep(worlds, events, i - 1);
      WorldNextKeepsValid(worlds[i - 1], events[i - 1], worlds[i]);
    }
  }

  lemma {:induction false} IssuedStays(worlds: seq<World>, events: seq<WorldEvent>, i: nat, j: nat, ref: Ref)
    requires WorldRun(worlds, events) && i <= j < |worlds| && ref in worlds[i].issued
    ensures ref in worlds[j].issued && worlds[j].issued[ref] == worlds[i].issued[ref]
    decreases j
  {
    if i < j {
      IssuedStays(worlds, events, i, j - 1, ref);
      TablesStayValid(worlds, events, j - 1);
      assert WorldStep(worlds, events, j - 1);
      WorldNextKeepsValid(worlds[j - 1], events[j - 1], worlds[j]);
    }
  }

  ghost predicate Resolves(w: World, runtime: nat, ref: Ref) {
    runtime in w.open && ref in w.open[runtime].pages
  }

  /**
   * No reference ever resolves in two runtimes, at the same time or one after the other, and wherever
   * it resolves it means the same page.
   */
  lemma ReferencesBelongToOneRuntime(worlds: seq<World>, events: seq<WorldEvent>, i: nat, j: nat, a: nat, b: nat, ref: Ref)
    requires WorldRun(worlds, events) && i <= j < |worlds|
    requires Resolves(worlds[i], a, ref) && Resolves(worlds[j], b, ref)
    ensures a == b && worlds[i].open[a].pages[ref] == worlds[j].open[b].pages[ref]
  {
    TablesStayValid(worlds, events, i);
    TablesStayValid(worlds, events, j);
    assert ValidTable(TableOf(worlds[i], a)) && ValidTable(TableOf(worlds[j], b));
    IssuedStays(worlds, events, i, j, ref);
  }

  lemma ResolvesSince(w: World, e: WorldEvent, v: World, runtime: nat, ref: Ref)
    requires WorldNext(w, e, v) && ref in w.issued && Resolves(v, runtime, ref)
    ensures Resolves(w, runtime, ref)
  {
  }

  /** A reference that was issued and resolves nowhere never resolves again, in any runtime. */
  lemma {:induction false} GoneReferencesStayGone(worlds: seq<World>, events: seq<WorldEvent>, i: nat, j: nat, b: nat, ref: Ref)
    requires WorldRun(worlds, events) && i <= j < |worlds|
    requires ref in worlds[i].issued && forall a :: !Resolves(worlds[i], a, ref)
    ensures !Resolves(worlds[j], b, ref)
    decreases j
  {
    if i < j {
      GoneReferencesStayGone(worlds, events, i, j - 1, b, ref);
      IssuedStays(worlds, events, i, j - 1, ref);
      assert WorldStep(worlds, events, j - 1);
      if Resolves(worlds[j], b, ref) {
        ResolvesSince(worlds[j - 1], events[j - 1], worlds[j], b, ref);
      }
    }
  }
}
