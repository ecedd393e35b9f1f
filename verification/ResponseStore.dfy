/** The bounded, expiring store of previous responses (internal/codexlocalgateway/store.go).

    Instants are integers and a call samples the clock once. Go iterates a map in any order, so
    `set` is specified by a relation; what a caller can rely on is stated over whole runs. */
module ResponseStore {
  import opened Common

  const DEFAULT_TTL := 30 * 60 * 1_000_000_000
  const DEFAULT_MAX_ENTRIES := 256

  type Instant = int

  datatype ToolCall = ToolCall(id: string, kind: string, name: string, arguments: string)

  datatype ChatMessage = ChatMessage(role: string, content: string, toolCallId: string, toolCalls: seq<ToolCall>)

  datatype ResponseState = ResponseState(messages: seq<ChatMessage>, expiresAt: Instant)
  {
    predicate Expired(now: Instant) {
      now > expiresAt
    }
  }

  datatype Lookup = Miss | Hit(messages: seq<ChatMessage>)

  type Items = map<string, ResponseState>

  // ----- one call -----

  ghost function WithoutExpired(items: Items, now: Instant): Items {
    map id | id in items && !items[id].Expired(now) :: items[id]
  }

  /** `victim` may be dropped to make room. The search uses the empty id as "nothing found yet", so
      only a map without that id is sure to lose its oldest entry. */
  ghost predicate MayEvict(items: Items, victim: string) {
    && victim in items
    && ("" !in items ==> forall id :: id in items ==> items[victim].expiresAt <= items[id].expiresAt)
  }

  ghost function RoomMade(items: Items, maxEntries: nat, now: Instant): Items {
    if |items| >= maxEntries then WithoutExpired(items, now) else items
  }

  /** `room` may be left once `set` has made room for one entry. */
  ghost predicate MakesRoom(before: Items, maxEntries: nat, now: Instant, room: Items) {
    var kept := RoomMade(before, maxEntries, now);
    if |kept| >= maxEntries then exists victim :: MayEvict(kept, victim) && room == kept - {victim} else room == kept
  }

  /** What `set` may leave in the map. */
  ghost predicate SetLeaves(before: Items, ttl: int, maxEntries: nat, s: SetCall, after: Items) {
    exists room ::
      MakesRoom(before, maxEntries, s.at, room) && after == room[s.id := ResponseState(s.messages, s.at + ttl)]
  }

  /** What `get` leaves in the map: an entry found to be expired is dropped. */
  ghost function GetLeaves(before: Items, id: string, now: Instant): Items {
    if id in before && before[id].Expired(now) then before - {id} else before
  }

  ghost function Found(items: Items, id: string, now: Instant): Lookup {
    if id in items && !items[id].Expired(now) then Hit(items[id].messages) else Miss
  }

  // ----- runs -----

  datatype SetCall = SetCall(id: string, messages: seq<ChatMessage>, at: Instant)

  datatype Call = Get(id: string, now: Instant) | Set(s: SetCall)
  {
    function At(): Instant {
      if Get? then now else s.at
    }
  }

  /** A run: the calls so far, each with the map it left. */
  datatype Run = Start | Then(earlier: Run, call: Call, after: Items)
  {
    ghost function Left(): Items {
      if Start? then map[] else after
    }

    /** An execution of the store that starts empty. */
    ghost predicate Legal(ttl: int, maxEntries: nat) {
      Then? ==> earlier.Legal(ttl, maxEntries) && Steps(ttl, maxEntries, earlier.Left(), call, after)
    }

    ghost function SetCount(): nat {
      if Start? then 0 else earlier.SetCount() + if call.Set? then 1 else 0
    }

    /** The log of the sets in the run: for each id, what was set, when, and after how many other sets. */
    ghost function Sets(): Log {
      if Start? then map[]
      else if call.Get? then earlier.Sets()
      else earlier.Sets()[call.s.id := SetRecord(call.s.messages, call.s.at, earlier.SetCount())]
    }

    /** No call of the run is later than `now`, and none is later than its successor. */
    ghost predicate ClockRuns(now: Instant) {
      Then? ==> call.At() <= now && earlier.ClockRuns(call.At())
    }

    /** Every set uses an id that is not empty and was never used before, and is later than every other set. */
    ghost predicate FreshSets() {
      Then? ==> earlier.FreshSets() && (call.Set? ==> FreshSet(earlier.Sets(), call.s))
    }
  }

  ghost predicate Steps(ttl: int, maxEntries: nat, before: Items, call: Call, after: Items) {
    match call
    case Get(id, now) => after == GetLeaves(before, id, now)
    case Set(s) => SetLeaves(before, ttl, maxEntries, s, after)
  }

  /** One entry of the log of sets; `order` counts the sets before it. */
  datatype SetRecord = SetRecord(messages: seq<ChatMessage>, at: Instant, order: nat)

  type Log = map<string, SetRecord>

  ghost predicate FreshSet(log: Log, s: SetCall) {
    && s.id != "" && s.id !in log
    && forall id :: id in log ==> log[id].at < s.at
  }

  /** What a simple window over the log still serves at `now`: entries that are not expired and
      have fewer than `maxEntries` sets after them. */
  ghost predicate InWindow(r: SetRecord, count: nat, ttl: int, maxEntries: nat, now: Instant) {
    now <= r.at + ttl && count - 1 - r.order < maxEntries
  }

  /** The specification of `get`: no map that shrinks, no eviction. */
  ghost function WindowLookup(log: Log, count: nat, ttl: int, maxEntries: nat, id: string, now: Instant): Lookup {
    if id in log && InWindow(log[id], count, ttl, maxEntries, now) then Hit(log[id].messages) else Miss
  }

  // ----- the store is a window over its log -----

  ghost predicate Ordered(log: Log, count: nat) {
    && |log| == count && "" !in log
    && (forall id :: id in log ==> log[id].order < count)
    && (forall a, b :: a in log && b in log && a != b ==> InOrder(log[a], log[b]))
  }

  ghost predicate InOrder(a: SetRecord, b: SetRecord) {
    a.order != b.order && (a.order < b.order <==> a.at < b.at)
  }

  ghost predicate Window(log: Log, count: nat, ttl: int, maxEntries: nat, clock: Instant, items: Items) {
    && |items| <= maxEntries
    && (forall id :: id in items ==>
          id in log && items[id] == ResponseState(log[id].messages, log[id].at + ttl))
    && (forall id :: id in log && InWindow(log[id], count, ttl, maxEntries, clock) ==> id in items)
    && (forall id :: id in items && count - 1 - log[id].order >= maxEntries ==> items[id].Expired(clock))
  }

  /** Ids whose places in the log lie in [lo, hi) number at most hi - lo. */
  lemma {:induction false} OrdersCounted(log: Log, count: nat, ids: set<string>, lo: nat, hi: nat)
    requires Ordered(log, count) && lo <= hi
    requires forall id :: id in ids ==> id in log && lo <= log[id].order < hi
    ensures |ids| <= hi - lo
    decreases hi - lo
  {
    if lo < hi {
      if last :| last in ids && log[last].order == hi - 1 {
        OrdersCounted(log, count, ids - {last}, lo, hi - 1);
      } else {
        OrdersCounted(log, count, ids, lo, hi - 1);
      }
    } else if id :| id in ids {
      assert false;
    }
  }

  ghost function NotOlder(log: Log, id: string): set<string>
    requires id in log
  {
    set other | other in log && log[other].order >= log[id].order
  }

  lemma NotOlderCounted(log: Log, count: nat, id: string)
    requires Ordered(log, count) && id in log
    ensures |NotOlder(log, id)| == count - log[id].order
  {
    var older := log.Keys - NotOlder(log, id);
    OrdersCounted(log, count, NotOlder(log, id), log[id].order, count);
    OrdersCounted(log, count, older, 0, log[id].order);
    assert log.Keys == older + NotOlder(log, id);
  }

  /** Dropping expired entries, one of them or all, keeps the window at any later time. */
  lemma ExpiryKeepsWindow(log: Log, count: nat, ttl: int, maxEntries: nat, clock: Instant, items: Items,
                          now: Instant, after: Items)
    requires Window(log, count, ttl, maxEntries, clock, items) && clock <= now
    requires after.Keys <= items.Keys
    requires forall id :: id in items ==> if id in after then after[id] == items[id] else items[id].Expired(now)
    ensures Window(log, count, ttl, maxEntries, now, after)
  {
    SubsetNotLarger(after.Keys, items.Keys);
  }

  lemma RoomMadeKeepsWindow(log: Log, count: nat, ttl: int, maxEntries: nat, clock: Instant, items: Items, now: Instant)
    requires Window(log, count, ttl, maxEntries, clock, items) && clock <= now
    ensures Window(log, count, ttl, maxEntries, now, RoomMade(items, maxEntries, now))
  {
    ExpiryKeepsWindow(log, count, ttl, maxEntries, clock, items, now, RoomMade(items, maxEntries, now));
  }

  /** The oldest entry of a full map is never one of the newest `maxEntries` - 1 of the log. */
  lemma VictimIsOld(log: Log, count: nat, ttl: int, maxEntries: nat, clock: Instant, kept: Items, victim: string)
    requires Ordered(log, count) && Window(log, count, ttl, maxEntries, clock, kept)
    requires |kept| >= maxEntries && MayEvict(kept, victim)
    ensures count - log[victim].order >= maxEntries
  {
    forall id | id in kept ensures id in NotOlder(log, victim) {
      assert log[victim].at <= log[id].at;
    }
    NotOlderCounted(log, count, victim);
    SubsetNotLarger(kept.Keys, NotOlder(log, victim));
  }

  /** When an entry is about to fall out of the window unexpired, the map is full of it and its
      successors, so it is the one evicted. */
  lemma OldestLeaves(log: Log, count: nat, ttl: int, maxEntries: nat, now: Instant, kept: Items, id: string)
    requires Ordered(log, count) && Window(log, count, ttl, maxEntries, now, kept)
    requires id in kept && count - log[id].order == maxEntries && !kept[id].Expired(now)
    ensures |kept| >= maxEntries
    ensures forall victim :: MayEvict(kept, victim) ==> victim == id
  {
    NewerAreKept(log, count, ttl, maxEntries, now, kept, id);
    NotOlderCounted(log, count, id);
    SubsetNotLarger(NotOlder(log, id), kept.Keys);
    hide Ordered, Window, MayEvict;
    forall victim | MayEvict(kept, victim) ensures victim == id {
      VictimIsNewer(log, count, ttl, maxEntries, now, kept, id, victim);
    }
  }

  /** What was set after an entry that is not expired is in the map, too, if the window reaches so far. */
  lemma NewerAreKept(log: Log, count: nat, ttl: int, maxEntries: nat, now: Instant, kept: Items, id: string)
    requires Ordered(log, count) && Window(log, count, ttl, maxEntries, now, kept)
    requires id in kept && count - log[id].order == maxEntries && !kept[id].Expired(now)
    ensures NotOlder(log, id) <= kept.Keys
  {
    forall other | other in NotOlder(log, id) ensures other in kept {
      assert log[id].at <= log[other].at;
    }
  }

  /** When the map holds just an entry and those set after it, only that one may be evicted. */
  lemma VictimIsNewer(log: Log, count: nat, ttl: int, maxEntries: nat, now: Instant, kept: Items, id: string,
                      victim: string)
    requires Ordered(log, count) && Window(log, count, ttl, maxEntries, now, kept)
    requires id in kept && kept.Keys == NotOlder(log, id) && MayEvict(kept, victim)
    ensures victim == id
  {
    assert victim in NotOlder(log, id);
  }

  lemma SetKeepsWindow(log: Log, count: nat, ttl: int, maxEntries: nat, clock: Instant, items: Items,
                       s: SetCall, after: Items)
    requires ttl > 0 && maxEntries > 0 && Ordered(log, count) && Window(log, count, ttl, maxEntries, clock, items)
    requires clock <= s.at && FreshSet(log, s) && SetLeaves(items, ttl, maxEntries, s, after)
    ensures Window(log[s.id := SetRecord(s.messages, s.at, count)], count + 1, ttl, maxEntries, s.at, after)
  {
    var room :| MakesRoom(items, maxEntries, s.at, room)
             && after == room[s.id := ResponseState(s.messages, s.at + ttl)];
    var kept := RoomMade(items, maxEntries, s.at);
    RoomMadeKeepsWindow(log, count, ttl, maxEntries, clock, items, s.at);
    if |kept| >= maxEntries {
      var victim :| MayEvict(kept, victim) && room == kept - {victim};
      EvictionMakesRoom(log, count, ttl, maxEntries, s.at, kept, victim);
    } else {
      NoRoomNeeded(log, count, ttl, maxEntries, s.at, kept);
    }
    AddedInRoom(log, count, ttl, maxEntries, kept, room, s, after);
  }

  /** What must have left the map, and what must not, for the window to move on by one set. */
  ghost predicate RoomFor(log: Log, count: nat, maxEntries: nat, now: Instant, kept: Items, room: Items)
    requires forall id :: id in kept ==> id in log
  {
    && |room| < maxEntries
    && (forall id :: id in room ==> id in kept && room[id] == kept[id])
    && (forall id :: id in kept && id !in room ==> count - log[id].order >= maxEntries)
    && (forall id :: id in room && count - log[id].order == maxEntries ==> room[id].Expired(now))
  }

  lemma EvictionMakesRoom(log: Log, count: nat, ttl: int, maxEntries: nat, now: Instant, kept: Items, victim: string)
    requires Ordered(log, count) && Window(log, count, ttl, maxEntries, now, kept)
    requires |kept| >= maxEntries && MayEvict(kept, victim)
    ensures RoomFor(log, count, maxEntries, now, kept, kept - {victim})
  {
    VictimIsOld(log, count, ttl, maxEntries, now, kept, victim);
    assert kept.Keys == (kept - {victim}).Keys + {victim};
    forall id | id in kept && count - log[id].order == maxEntries && !kept[id].Expired(now) ensures id == victim {
      OldestLeaves(log, count, ttl, maxEntries, now, kept, id);
    }
  }

  lemma NoRoomNeeded(log: Log, count: nat, ttl: int, maxEntries: nat, now: Instant, kept: Items)
    requires Ordered(log, count) && Window(log, count, ttl, maxEntries, now, kept)
    requires |kept| < maxEntries
    ensures RoomFor(log, count, maxEntries, now, kept, kept)
  {
    forall id | id in kept && count - log[id].order == maxEntries ensures kept[id].Expired(now) {
      if !kept[id].Expired(now) {
        OldestLeaves(log, count, ttl, maxEntries, now, kept, id);
      }
    }
  }

  /** Adding the new entry once there is room for it. */
  lemma AddedInRoom(log: Log, count: nat, ttl: int, maxEntries: nat, kept: Items, room: Items, s: SetCall, after: Items)
    requires ttl > 0 && Window(log, count, ttl, maxEntries, s.at, kept) && FreshSet(log, s)
    requires RoomFor(log, count, maxEntries, s.at, kept, room)
    requires after == room[s.id := ResponseState(s.messages, s.at + ttl)]
    ensures Window(log[s.id := SetRecord(s.messages, s.at, count)], count + 1, ttl, maxEntries, s.at, after)
  {
    AddedStays(log, count, ttl, maxEntries, kept, room, s, after);
    AddedIsServed(log, count, ttl, maxEntries, kept, room, s, after);
    assert |after| <= maxEntries by {
      assert after.Keys == room.Keys + {s.id};
    }
    hide RoomFor, FreshSet;
  }

  /** Each entry is as it was set, and what is beyond the window has expired. */
  lemma AddedStays(log: Log, count: nat, ttl: int, maxEntries: nat, kept: Items, room: Items, s: SetCall, after: Items)
    requires ttl > 0 && Window(log, count, ttl, maxEntries, s.at, kept) && FreshSet(log, s)
    requires RoomFor(log, count, maxEntries, s.at, kept, room)
    requires after == room[s.id := ResponseState(s.messages, s.at + ttl)]
    ensures var next := log[s.id := SetRecord(s.messages, s.at, count)];
      forall id :: id in after ==>
        && id in next && after[id] == ResponseState(next[id].messages, next[id].at + ttl)
        && (count - next[id].order >= maxEntries ==> after[id].Expired(s.at))
  {
  }

  /** What is in the window is in the map. */
  lemma AddedIsServed(log: Log, count: nat, ttl: int, maxEntries: nat, kept: Items, room: Items, s: SetCall,
                      after: Items)
    requires ttl > 0 && Window(log, count, ttl, maxEntries, s.at, kept) && FreshSet(log, s)
    requires RoomFor(log, count, maxEntries, s.at, kept, room)
    requires after == room[s.id := ResponseState(s.messages, s.at + ttl)]
    ensures var next := log[s.id := SetRecord(s.messages, s.at, count)];
      forall id :: id in next && InWindow(next[id], count + 1, ttl, maxEntries, s.at) ==> id in after
  {
    var next := log[s.id := SetRecord(s.messages, s.at, count)];
    forall id | id in next && InWindow(next[id], count + 1, ttl, maxEntries, s.at) ensures id in after {
      assert id == s.id || InWindow(log[id], count, ttl, maxEntries, s.at);
    }
  }

  lemma SetKeepsOrder(log: Log, count: nat, s: SetCall)
    requires Ordered(log, count) && FreshSet(log, s)
    ensures Ordered(log[s.id := SetRecord(s.messages, s.at, count)], count + 1)
  {
    var next := log[s.id := SetRecord(s.messages, s.at, count)];
    assert |next| == count + 1 by {
      assert next.Keys == log.Keys + {s.id};
    }
    forall a, b | a in next && b in next && a != b ensures InOrder(next[a], next[b]) {
      assert a == s.id || b == s.id || InOrder(log[a], log[b]);
    }
  }

  /** Every reachable store is a window over its log. */
  lemma {:induction false} RunsKeepWindow(ttl: int, maxEntries: nat, run: Run, clock: Instant)
    requires ttl > 0 && maxEntries > 0 && run.Legal(ttl, maxEntries) && run.ClockRuns(clock) && run.FreshSets()
    ensures Ordered(run.Sets(), run.SetCount())
    ensures Window(run.Sets(), run.SetCount(), ttl, maxEntries, clock, run.Left())
  {
    match run
    case Start =>
    case Then(earlier, call, after) =>
      RunsKeepWindow(ttl, maxEntries, earlier, call.At());
      match call {
        case Get(id, now) =>
          GetStep(earlier.Sets(), earlier.SetCount(), ttl, maxEntries, earlier.Left(), id, now, clock);
        case Set(s) =>
          SetStep(earlier.Sets(), earlier.SetCount(), ttl, maxEntries, earlier.Left(), s, after, clock);
      }
  }

  lemma GetStep(
    log: Log, count: nat, ttl: int, maxEntries: nat, before: Items, id: string, now: Instant, clock: Instant)
    requires Window(log, count, ttl, maxEntries, now, before) && now <= clock
    ensures Window(log, count, ttl, maxEntries, clock, GetLeaves(before, id, now))
  {
    ExpiryKeepsWindow(log, count, ttl, maxEntries, now, before, clock, GetLeaves(before, id, now));
  }

  lemma SetStep(
    log: Log, count: nat, ttl: int, maxEntries: nat, before: Items, s: SetCall, after: Items, clock: Instant)
    requires ttl > 0 && maxEntries > 0 && Ordered(log, count) && Window(log, count, ttl, maxEntries, s.at, before)
    requires s.at <= clock && FreshSet(log, s) && SetLeaves(before, ttl, maxEntries, s, after)
    ensures var next := log[s.id := SetRecord(s.messages, s.at, count)];
      Ordered(next, count + 1) && Window(next, count + 1, ttl, maxEntries, clock, after)
  {
    var next := log[s.id := SetRecord(s.messages, s.at, count)];
    SetKeepsOrder(log, count, s);
    SetKeepsWindow(log, count, ttl, maxEntries, s.at, before, s, after);
    ExpiryKeepsWindow(next, count + 1, ttl, maxEntries, s.at, after, clock, after);
  }

  /** After any run with fresh, non-empty ids set at increasing instants, `get` answers as the window
      over the log does, and the map holds at most `maxEntries` entries. */
  lemma StoreIsWindowOverLog(ttl: int, maxEntries: nat, run: Run, id: string, now: Instant)
    requires ttl > 0 && maxEntries > 0 && run.Legal(ttl, maxEntries) && run.ClockRuns(now) && run.FreshSets()
    ensures Found(run.Left(), id, now) == WindowLookup(run.Sets(), run.SetCount(), ttl, maxEntries, id, now)
    ensures |run.Left()| <= maxEntries
  {
    RunsKeepWindow(ttl, maxEntries, run, now);
  }

  // ----- the store itself -----

  lemma SizeAfterUpdate(items: Items, id: string, state: ResponseState)
    ensures |items[id := state]| == if id in items then |items| else |items| + 1
    ensures |items - {id}| == if id in items then |items| - 1 else |items|
  {
    assert (items[id := state]).Keys == items.Keys + {id};
    assert (items - {id}).Keys == items.Keys - {id};
  }

  lemma SetIsStep(run: Run, ttl: int, maxEntries: nat, room: Items, s: SetCall)
    requires run.Legal(ttl, maxEntries) && MakesRoom(run.Left(), maxEntries, s.at, room)
    ensures Then(run, Call.Set(s), room[s.id := ResponseState(s.messages, s.at + ttl)]).Legal(ttl, maxEntries)
  {
    hide MakesRoom;
    assert SetLeaves(run.Left(), ttl, maxEntries, s, room[s.id := ResponseState(s.messages, s.at + ttl)]);
  }

  class Store {
    const ttl: int
    const maxEntries: nat
    var items: Items
    ghost var run: Run

    ghost predicate Valid()
      reads this
    {
      ttl > 0 && 0 < maxEntries && |items| <= maxEntries && run.Legal(ttl, maxEntries) && run.Left() == items
    }

    constructor (ttl: int, maxEntries: int)
      ensures Valid() && run == Start
      ensures this.ttl == if ttl <= 0 then 30 * 60_000_000_000 else ttl
      ensures this.maxEntries == if maxEntries <= 0 then 256 else maxEntries
    {
      this.ttl := if ttl <= 0 then DEFAULT_TTL else ttl;
      this.maxEntries := if maxEntries <= 0 then DEFAULT_MAX_ENTRIES else maxEntries;
      items, run := map[], Start;
    }

    method Get(id: string, now: Instant) returns (answer: Lookup)
      requires Valid()
      modifies this
      ensures Valid() && run == Then(old(run), Call.Get(id, now), items)
      ensures answer == Found(old(items), id, now)
    {
      run := Then(run, Call.Get(id, now), GetLeaves(items, id, now));
      if id !in items {
        return Miss;
      }
      var state := items[id];
      if state.Expired(now) {
        SizeAfterUpdate(items, id, state);
        items := items - {id};
        return Miss;
      }
      return Hit(state.messages);
    }

    method Set(id: string, messages: seq<ChatMessage>, now: Instant)
      requires Valid()
      modifies this
      ensures Valid() && run == Then(old(run), Call.Set(SetCall(id, messages, now)), items)
    {
      hide MakesRoom, Run.Legal, RoomMade;
      MakeRoom(now);
      SetIsStep(run, ttl, maxEntries, items, SetCall(id, messages, now));
      SizeAfterUpdate(items, id, ResponseState(messages, now + ttl));
      items := items[id := ResponseState(messages, now + ttl)];
      run := Then(run, Call.Set(SetCall(id, messages, now)), items);
    }

    /** The first half of `set`. */
    method MakeRoom(now: Instant)
      requires 0 < maxEntries && |items| <= maxEntries
      modifies `items
      ensures MakesRoom(old(items), maxEntries, now, items) && |items| < maxEntries
    {
      if |items| >= maxEntries {
        EvictExpired(now);
      }
      if |items| >= maxEntries {
        var victim := Oldest();
        SizeAfterUpdate(items, victim, items[victim]);
        items := items - {victim};
      }
    }

    /** The search of `set` for the entry to drop; the map's keys come in any order. */
    method Oldest() returns (oldestId: string)
      requires |items| > 0
      ensures MayEvict(items, oldestId)
    {
      var rest := items.Keys;
      var oldest: Instant := 0;
      oldestId := "";
      while rest != {}
        invariant rest <= items.Keys
        invariant oldestId != "" ==> oldestId in items.Keys - rest && oldest == items[oldestId].expiresAt
        invariant oldestId == "" ==> rest == items.Keys || ("" in items && "" !in rest)
        invariant "" !in items ==> forall id :: id in items && id !in rest ==> oldest <= items[id].expiresAt
      {
        var id :| id in rest;
        var state := items[id];
        if oldestId == "" || state.expiresAt < oldest {
          oldestId, oldest := id, state.expiresAt;
        }
        rest := rest - {id};
      }
      var some :| some in items.Keys;
    }

    method EvictExpired(now: Instant)
      modifies `items
      ensures items == WithoutExpired(old(items), now)
      ensures |items| <= |old(items)|
    {
      var rest := items.Keys;
      while rest != {}
        invariant rest <= old(items).Keys
        invariant items == map id | id in old(items) && (id in rest || !old(items)[id].Expired(now)) :: old(items)[id]
      {
        var id :| id in rest;
        if items[id].Expired(now) {
          items := items - {id};
        }
        rest := rest - {id};
      }
      SubsetNotLarger(items.Keys, old(items).Keys);
    }
  }
}
