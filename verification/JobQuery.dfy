/** The process IDs of a browser's job object, read with a buffer that grows until the list fits. */
module JobQuery {
  import opened Prelude
  import opened Bytes

  const INITIAL_CAPACITY := 64
  const MAX_PROCESS_IDS := 4096

  // One call of the operating system: whether it succeeded, whether it failed for want of space, and
  // the whole buffer, which it may have filled with anything.
  datatype Reply = Reply(success: bool, moreData: bool, buffer: seq<Byte>)

  // What the system answers to the n-th call with room for so many IDs.
  type System = (nat, nat) -> Reply

  // Go's int(uint32): the same number on 64-bit words, the signed reading on 32-bit words.
  function AsInt(n: nat, pointer: nat): int {
    if pointer == 4 && n >= 0x8000_0000 then n - TWO_32 else n
  }

  // Go's int after an arithmetic operation: 32-bit words keep the low 32 bits, read as signed.
  function Wrapped(n: int, pointer: nat): int {
    if pointer == 4 then (n + 0x8000_0000) % TWO_32 - 0x8000_0000 else n
  }

  // The size the parser asks of a buffer with so many entries; the product and the sum can wrap.
  function Required(pointer: nat, count: int): int
    requires pointer in {4, 8}
  {
    Wrapped(8 + Wrapped(Room(pointer, count), pointer), pointer)
  }

  // The bytes that so many pointer-sized entries take.
  function Room(pointer: nat, count: int): int
    requires pointer in {4, 8}
  {
    if pointer == 8 then 8 * count else 4 * count
  }

  function Total(b: seq<Byte>, pointer: nat): int
    requires |b| >= 8
  {
    AsInt(Word(b[0..4]), pointer)
  }

  function Returned(b: seq<Byte>, pointer: nat): int
    requires |b| >= 8
  {
    AsInt(Word(b[4..8]), pointer)
  }

  function Entry(b: seq<Byte>, pointer: nat, index: nat): nat
    requires pointer in {4, 8} && |b| >= 8 + Room(pointer, index + 1)
  {
    var offset := 8 + Room(pointer, index);
    if pointer == 8 then Long(b[offset..offset + 8]) else Word(b[offset..offset + 4])
  }

  predicate Holds(b: seq<Byte>, pointer: nat, count: int) {
    pointer in {4, 8} && |b| >= 8 && 8 + Room(pointer, count) <= |b|
  }

  // The IDs in the first `count` places.
  function Entries(b: seq<Byte>, pointer: nat, count: nat): seq<nat>
    requires Holds(b, pointer, count)
    decreases count
  {
    if count == 0 then []
    else
      Entries(b, pointer, count - 1) + [Entry(b, pointer, count - 1)]
  }

  predicate ValidPid(n: nat) {
    0 < n < TWO_32
  }

  /** A complete list: all assigned IDs were returned, they are in the buffer, and each is a process ID. */
  predicate CompleteList(b: seq<Byte>, pointer: nat, count: nat) {
    && Holds(b, pointer, count) && Word(b[0..4]) == count && Word(b[4..8]) == count && count <= MAX_PROCESS_IDS
    && forall n :: n in Entries(b, pointer, count) ==> ValidPid(n)
  }

  /**
   * On 32-bit words a count with the top bit set is negative. A list with two such counts reads as an
   * empty one unless the size computed from them wraps round to more than there is.
   */
  predicate NegativeList(b: seq<Byte>, pointer: nat) {
    && pointer == 4 && |b| >= 8 && Word(b[0..4]) == Word(b[4..8]) >= 0x8000_0000
    && Required(pointer, Returned(b, pointer)) <= |b|
  }

  method ParseJobProcessIds(b: seq<Byte>, pointer: nat) returns (r: Option<set<nat>>)
    requires pointer in {4, 8}
    ensures r.Some? <==> Parses(b, pointer)
    ensures r.Some? ==> r.value == ParsedSet(b, pointer)
  {
    if |b| < 8 {
      return None;
    }
    var total, returned := Total(b, pointer), Returned(b, pointer);
    if returned > total || returned > MAX_PROCESS_IDS {
      return None;
    }
    var product := Wrapped(Room(pointer, returned), pointer);
    var required := Wrapped(8 + product, pointer);
    if required > |b| {
      return None;
    }
    SmallCountsDoNotWrap(pointer, returned);
    // The loop does not run for a negative count.
    if returned < 0 {
      return Some({});
    }
    r := ReadEntries(b, pointer, returned);
  }

  // The loop over the returned entries.
  method ReadEntries(b: seq<Byte>, pointer: nat, count: nat) returns (r: Option<set<nat>>)
    requires Holds(b, pointer, count)
    ensures r.Some? <==> forall n :: n in Entries(b, pointer, count) ==> ValidPid(n)
    ensures r.Some? ==> r.value == set n | n in Entries(b, pointer, count)
  {
    var result: set<nat> := {};
    var index := 0;
    while index < count
      invariant index <= count && Holds(b, pointer, index)
      invariant result == (set n | n in Entries(b, pointer, index))
      invariant forall n :: n in Entries(b, pointer, index) ==> ValidPid(n)
    {
      RoomForNext(b, pointer, index, count);
      var value := Entry(b, pointer, index);
      if value == 0 || value >= TWO_32 {
        EntryListed(b, pointer, index, count);
        return None;
      }
      result := result + {value};
      index := index + 1;
    }
    r := Some(result);
  }

  lemma SmallCountsDoNotWrap(pointer: nat, count: int)
    requires pointer in {4, 8} && count <= MAX_PROCESS_IDS
    ensures count >= 0 ==> Required(pointer, count) == 8 + Room(pointer, count)
  {
  }

  lemma RoomForNext(b: seq<Byte>, pointer: nat, index: nat, count: int)
    requires Holds(b, pointer, count) && index < count
    ensures Holds(b, pointer, index + 1) && |b| >= 8 + Room(pointer, index + 1)
  {
  }

  lemma {:induction false} EntryListed(b: seq<Byte>, pointer: nat, index: nat, count: nat)
    requires Holds(b, pointer, count) && index < count && Holds(b, pointer, index + 1)
    ensures Entry(b, pointer, index) in Entries(b, pointer, count)
    decreases count
  {
    if index < count - 1 {
      RoomForNext(b, pointer, count - 2, count);
      EntryListed(b, pointer, index, count - 1);
    }
  }

  predicate Parses(b: seq<Byte>, pointer: nat)
    requires pointer in {4, 8}
  {
    && |b| >= 8
    && var returned := Returned(b, pointer);
    && returned <= Total(b, pointer) && returned <= MAX_PROCESS_IDS && Required(pointer, returned) <= |b|
    && (returned >= 0 ==>
          Holds(b, pointer, returned) && forall n :: n in Entries(b, pointer, returned) ==> ValidPid(n))
  }

  function ParsedSet(b: seq<Byte>, pointer: nat): set<nat>
    requires pointer in {4, 8} && Parses(b, pointer)
  {
    var returned := Returned(b, pointer);
    if returned < 0 then {} else set n | n in Entries(b, pointer, returned)
  }

  /** The result of a success: the process IDs of a complete list, or nothing for negative counts. */
  ghost predicate Exact(b: seq<Byte>, pointer: nat, ids: set<nat>) {
    && (forall n :: n in ids ==> ValidPid(n))
    && ((exists count :: CompleteList(b, pointer, count) && ids == set n | n in Entries(b, pointer, count))
        || (NegativeList(b, pointer) && ids == {}))
  }

  /** A successful parse with all IDs returned is a complete list, or one with negative counts. */
  lemma ParsedIsExact(b: seq<Byte>, pointer: nat)
    requires pointer in {4, 8} && Parses(b, pointer) && Returned(b, pointer) >= Total(b, pointer)
    ensures var returned := Returned(b, pointer);
            if returned >= 0 then CompleteList(b, pointer, returned)
            else NegativeList(b, pointer) && ParsedSet(b, pointer) == {}
    ensures Exact(b, pointer, ParsedSet(b, pointer))
  {
    SmallCountsDoNotWrap(pointer, Returned(b, pointer));
  }

  // A reply whose counts say that every ID was returned.
  method ParseReply(b: seq<Byte>, pointer: nat) returns (r: Option<set<nat>>)
    requires pointer in {4, 8} && |b| >= 8 && Returned(b, pointer) >= Total(b, pointer)
    ensures r.Some? <==> Parses(b, pointer)
    ensures r.Some? ==> r.value == ParsedSet(b, pointer) && Exact(b, pointer, r.value)
  {
    r := ParseJobProcessIds(b, pointer);
    if r.Some? {
      ParsedIsExact(b, pointer);
    }
  }

  // One of the seven calls succeeded within the limit, and these are its IDs.
  ghost predicate Succeeded(system: System, n: nat, capacity: nat, pointer: nat, ids: set<nat>) {
    && n < 7 && INITIAL_CAPACITY <= capacity <= MAX_PROCESS_IDS
    && system(n, capacity).success && Exact(system(n, capacity).buffer, pointer, ids)
  }

  // The system fills the buffer it is given and nothing else.
  ghost predicate Sized(system: System, pointer: nat)
    requires pointer in {4, 8}
  {
    forall n: nat, capacity: nat :: |system(n, capacity).buffer| == 8 + Room(pointer, capacity)
  }

  lemma RoomForCounts(system: System, pointer: nat, n: nat, capacity: nat)
    requires pointer in {4, 8} && Sized(system, pointer)
    ensures |system(n, capacity).buffer| >= 8
  {
  }

  // 64 doubled so many times.
  function Doubled(n: nat): nat {
    if n == 0 then INITIAL_CAPACITY else 2 * Doubled(n - 1)
  }

  // Each room is at least twice the one before, from the first to the limit.
  ghost predicate Growing(asked: seq<nat>) {
    && asked != [] && asked[0] == INITIAL_CAPACITY
    && (forall k :: 0 < k < |asked| ==> 2 * asked[k - 1] <= asked[k])
    && forall k :: 0 <= k < |asked| ==> asked[k] <= MAX_PROCESS_IDS
  }

  datatype QueryError = TooMany | QueryFailed | Unparsable | OverLimit

  // Both counts of the reply are within the limit.
  predicate WithinLimit(b: seq<Byte>, pointer: nat)
    requires |b| >= 8
  {
    Total(b, pointer) <= MAX_PROCESS_IDS && Returned(b, pointer) <= MAX_PROCESS_IDS
  }

  // The call succeeded and returned every ID.
  predicate Complete(reply: Reply, pointer: nat)
    requires |reply.buffer| >= 8
  {
    reply.success && Returned(reply.buffer, pointer) >= Total(reply.buffer, pointer)
  }

  // The call failed although there was room for all.
  predicate Broken(reply: Reply, capacity: nat, pointer: nat)
    requires |reply.buffer| >= 8
  {
    !reply.success && !reply.moreData && Total(reply.buffer, pointer) <= capacity
  }

  // The room the next call gets.
  function NextRoom(capacity: nat, total: int): nat {
    if total > 2 * capacity then total else 2 * capacity
  }

  /** A reply that leads to another call. */
  predicate AsksAgain(reply: Reply, capacity: nat, pointer: nat)
    requires |reply.buffer| >= 8
  {
    WithinLimit(reply.buffer, pointer) && !Complete(reply, pointer) && !Broken(reply, capacity, pointer)
  }

  // What the last reply says about an error.
  predicate Refuses(error: QueryError, reply: Reply, capacity: nat, pointer: nat)
    requires |reply.buffer| >= 8 && pointer in {4, 8}
  {
    match error
    case TooMany => !WithinLimit(reply.buffer, pointer)
    case Unparsable => WithinLimit(reply.buffer, pointer) && Complete(reply, pointer) && !Parses(reply.buffer, pointer)
    case QueryFailed => WithinLimit(reply.buffer, pointer) && Broken(reply, capacity, pointer)
    case OverLimit => && AsksAgain(reply, capacity, pointer)
                      && NextRoom(capacity, Total(reply.buffer, pointer)) > MAX_PROCESS_IDS
  }

  /** A whole query: which rooms were asked for, and what the last reply came to. */
  ghost predicate Queried(system: System, pointer: nat, asked: seq<nat>, r: Result<set<nat>, QueryError>)
    requires pointer in {4, 8} && Sized(system, pointer)
  {
    && asked != [] && asked[0] == INITIAL_CAPACITY && Asking(system, pointer, asked)
    && var n := |asked| - 1;
       var reply := system(n, asked[n]);
    && match r
       case Ok(ids) => && WithinLimit(reply.buffer, pointer) && Complete(reply, pointer) && Parses(reply.buffer, pointer)
                       && ids == ParsedSet(reply.buffer, pointer)
       case Err(error) => Refuses(error, reply, asked[n], pointer)
  }

  ghost predicate Asking(system: System, pointer: nat, asked: seq<nat>)
    requires pointer in {4, 8} && Sized(system, pointer)
  {
    forall k: nat :: k + 1 < |asked| ==> MovesOn(system, pointer, asked, k)
  }

  // One more call, with the room that the last reply leads to.
  lemma AsksOnce(system: System, pointer: nat, asked: seq<nat>, next: nat)
    requires pointer in {4, 8} && Sized(system, pointer) && Asking(system, pointer, asked) && Growing(asked)
    requires var n := |asked| - 1; var reply := system(n, asked[n]);
             AsksAgain(reply, asked[n], pointer) && next == NextRoom(asked[n], Total(reply.buffer, pointer))
    requires next <= MAX_PROCESS_IDS
    ensures Asking(system, pointer, asked + [next]) && Growing(asked + [next])
  {
    var more := asked + [next];
    forall k: nat | k + 1 < |more| ensures MovesOn(system, pointer, more, k) {
      assert k + 1 < |asked| ==> MovesOn(system, pointer, asked, k);
    }
  }

  ghost predicate MovesOn(system: System, pointer: nat, asked: seq<nat>, k: nat)
    requires pointer in {4, 8} && Sized(system, pointer) && k + 1 < |asked|
  {
    var reply := system(k, asked[k]);
    AsksAgain(reply, asked[k], pointer) && asked[k + 1] == NextRoom(asked[k], Total(reply.buffer, pointer))
  }

  /**
   * queryJobProcessIDs. Whatever the system answers, the loop asks at most seven times, with room that
   * grows strictly and never beyond the limit; a success is the exact set of a complete list, or the
   * empty set of a list whose counts are negative, and an error is what the last reply calls for.
   */
  method QueryJobProcessIds(system: System, pointer: nat) returns (r: Result<set<nat>, QueryError>, ghost asked: seq<nat>)
    requires pointer in {4, 8}
    requires Sized(system, pointer)
    ensures |asked| <= 7 && Growing(asked) && Queried(system, pointer, asked, r)
    ensures r.Ok? ==> exists n: nat, capacity: nat :: Succeeded(system, n, capacity, pointer, r.value)
    ensures r.Ok? ==> Succeeded(system, |asked| - 1, asked[|asked| - 1], pointer, r.value)
  {
    var capacity := INITIAL_CAPACITY;
    asked := [];
    var calls := 0;
    while capacity <= MAX_PROCESS_IDS
      invariant |asked| == calls <= 6 && capacity >= Doubled(calls)
      invariant Growing(asked + [capacity]) && capacity <= MAX_PROCESS_IDS
      invariant Asking(system, pointer, asked + [capacity])
      decreases MAX_PROCESS_IDS - capacity
    {
      var reply := system(calls, capacity);
      var buffer := reply.buffer;
      asked, calls := asked + [capacity], calls + 1;
      RoomForCounts(system, pointer, calls - 1, capacity);
      var total, returned := Total(buffer, pointer), Returned(buffer, pointer);
      if total > MAX_PROCESS_IDS || returned > MAX_PROCESS_IDS {
        return Err(TooMany), asked;
      }
      if reply.success && returned >= total {
        var parsed := ParseReply(buffer, pointer);
        if parsed.None? {
          return Err(Unparsable), asked;
        }
        assert Succeeded(system, calls - 1, capacity, pointer, parsed.value);
        return Ok(parsed.value), asked;
      }
      if !reply.success && !reply.moreData && total <= capacity {
        return Err(QueryFailed), asked;
      }
      var next := capacity * 2;
      if total > next {
        next := total;
      }
      if next <= capacity || next > MAX_PROCESS_IDS {
        return Err(OverLimit), asked;
      }
      DoublingEnds(calls, next);
      AsksOnce(system, pointer, asked, next);
      capacity := next;
    }
    r := Err(OverLimit);
  }

  // ---- a system that tells the truth ----

  // A job of these processes: the call gives all IDs when there is room, and says that there is more otherwise.
  ghost predicate Honest(system: System, pointer: nat, ids: seq<nat>)
    requires pointer in {4, 8} && Sized(system, pointer)
  {
    && |ids| <= MAX_PROCESS_IDS && (forall x :: x in ids ==> ValidPid(x))
    && forall n: nat, capacity: nat :: INITIAL_CAPACITY <= capacity <= MAX_PROCESS_IDS ==>
         HonestReply(system(n, capacity), capacity, pointer, ids)
  }

  ghost predicate HonestReply(reply: Reply, capacity: nat, pointer: nat, ids: seq<nat>)
    requires pointer in {4, 8} && |reply.buffer| == 8 + Room(pointer, capacity)
  {
    && |reply.buffer| >= 8 && Word(reply.buffer[0..4]) == |ids|
    && if |ids| <= capacity
       then && reply.success && Word(reply.buffer[4..8]) == |ids|
            && Holds(reply.buffer, pointer, |ids|) && Entries(reply.buffer, pointer, |ids|) == ids
       else !reply.success && reply.moreData && Word(reply.buffer[4..8]) == capacity
  }

  lemma {:induction false} GrowingFromFirst(asked: seq<nat>, k: nat)
    requires Growing(asked) && k < |asked|
    ensures INITIAL_CAPACITY <= asked[k] && forall j :: 0 <= j <= k ==> asked[j] <= asked[k]
  {
    if k > 0 {
      GrowingFromFirst(asked, k - 1);
    }
  }

  lemma HonestListParses(reply: Reply, capacity: nat, pointer: nat, ids: seq<nat>)
    requires pointer in {4, 8} && |reply.buffer| == 8 + Room(pointer, capacity)
    requires HonestReply(reply, capacity, pointer, ids) && |ids| <= capacity
    requires |ids| <= MAX_PROCESS_IDS && forall x :: x in ids ==> ValidPid(x)
    ensures |reply.buffer| >= 8 && WithinLimit(reply.buffer, pointer) && Complete(reply, pointer)
    ensures Parses(reply.buffer, pointer) && ParsedSet(reply.buffer, pointer) == set x | x in ids
  {
    SmallCountsDoNotWrap(pointer, |ids|);
    assert Returned(reply.buffer, pointer) == |ids| == Total(reply.buffer, pointer);
  }

  // After an honest reply there is room for all.
  lemma RoomAfterHonestReply(system: System, pointer: nat, asked: seq<nat>, ids: seq<nat>, k: nat)
    requires pointer in {4, 8} && Sized(system, pointer) && Honest(system, pointer, ids)
    requires Asking(system, pointer, asked) && Growing(asked) && k + 1 < |asked|
    ensures |ids| <= asked[k + 1] && asked[k] < |ids|
  {
    GrowingFromFirst(asked, k);
    assert MovesOn(system, pointer, asked, k) && HonestReply(system(k, asked[k]), asked[k], pointer, ids);
  }

  /** If the system tells the truth, the query finds exactly the processes of the job, with at most two calls. */
  lemma HonestSystemIsHeard(system: System, pointer: nat, asked: seq<nat>, r: Result<set<nat>, QueryError>, ids: seq<nat>)
    requires pointer in {4, 8} && Sized(system, pointer) && Honest(system, pointer, ids)
    requires Queried(system, pointer, asked, r) && Growing(asked)
    ensures r == Ok(set x | x in ids) && |asked| <= 2
  {
    var n := |asked| - 1;
    GrowingFromFirst(asked, n);
    assert HonestReply(system(n, asked[n]), asked[n], pointer, ids);
    if n > 0 {
      RoomAfterHonestReply(system, pointer, asked, ids, n - 1);
    }
    if n > 1 {
      RoomAfterHonestReply(system, pointer, asked, ids, n - 2);
    }
    if |ids| <= asked[n] {
      HonestListParses(system(n, asked[n]), asked[n], pointer, ids);
    }
  }

  lemma DoublingEnds(calls: nat, capacity: nat)
    requires 1 <= calls <= 7 && capacity >= Doubled(calls) && capacity <= MAX_PROCESS_IDS
    ensures calls <= 6
  {
    assert Doubled(7) == 128 * Doubled(0) by {
      assert Doubled(7) == 2 * Doubled(6) && Doubled(6) == 2 * Doubled(5) && Doubled(5) == 2 * Doubled(4);
      assert Doubled(4) == 2 * Doubled(3) && Doubled(3) == 2 * Doubled(2) && Doubled(2) == 2 * Doubled(1);
    }
  }

  /**
   * Exactly when the claim about complete lists fails: on 32-bit words a list whose equal counts have
   * the top bit set and whose wrapped size fits the buffer parses as the empty set, although it is no
   * complete list.
   */
  lemma NegativeListsExactly(b: seq<Byte>, pointer: nat)
    requires pointer in {4, 8} && |b| >= 8 && Returned(b, pointer) >= Total(b, pointer)
    ensures NegativeList(b, pointer) <==> Parses(b, pointer) && forall count :: !CompleteList(b, pointer, count)
    ensures NegativeList(b, pointer) ==> ParsedSet(b, pointer) == {}
  {
    if Parses(b, pointer) {
      ParsedIsExact(b, pointer);
    }
  }

  /** Which counts those are: what is left of the top two bits decides whether the size wraps below zero. */
  lemma WrappedSizeFits(b: seq<Byte>, count: nat)
    requires |b| >= 8 && 0x8000_0000 <= count < TWO_32 && |b| < 0x8000_0000
    ensures Required(4, AsInt(count, 4)) <= |b| <==>
            var rest := count % 0x4000_0000; rest >= 0x1FFF_FFFE || 8 + 4 * rest <= |b|
  {
    var rest := count % 0x4000_0000;
    assert count == 0x8000_0000 + rest || count == 0xC000_0000 + rest;
  }

  /** Both happen: of two lists with negative counts one reads as empty and one is refused. */
  lemma NegativeListsGoBothWays(b: seq<Byte>, c: seq<Byte>)
    requires |b| == |c| == 264
    requires Word(b[0..4]) == Word(b[4..8]) == 0xFFFF_FFFF && Word(c[0..4]) == Word(c[4..8]) == 0x9000_0000
    ensures Parses(b, 4) && ParsedSet(b, 4) == {} && !Parses(c, 4)
  {
    WrappedSizeFits(b, 0xFFFF_FFFF);
    WrappedSizeFits(c, 0x9000_0000);
  }
}
