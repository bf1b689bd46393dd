/**
 Lists kept up to date by events that may arrive late, twice or out of order: the truncated activity
 list and the thread list. `time` is the parsed timestamp, None when it is missing or unparsable.
 */
module EventOrdering {
  import opened Wrappers

  datatype Item =
    | Activity(id: string, time: Option<int>, status: string, progress: Option<real>, payload: string)
    | Thread(id: string, time: Option<int>, messageCount: Option<int>, payload: string)

  function CompareTimestamps(incoming: Option<int>, existing: Option<int>): int {
    if incoming.None? && existing.None? then 0
    else if incoming.None? then -1
    else if existing.None? then 1
    else incoming.value - existing.value
  }

  function ActivityStatusRank(status: string): int {
    if status == "pending" then 1
    else if status == "running" || status == "awaiting_user_input" then 2
    else if status == "success" || status == "completed" || status == "failed" || status == "cancelled"
            || status == "timed_out" then 3
    else 0
  }

  function ProgressValue(item: Item): real
    requires item.Activity?
  {
    if item.progress.Some? then item.progress.value else -1.0
  }

  function MessageCount(item: Item): int
    requires item.Thread?
  {
    if item.messageCount.Some? then item.messageCount.value else 0
  }

  predicate ShouldReplaceActivity(existing: Option<Item>, incoming: Item)
    requires incoming.Activity? && (existing.Some? ==> existing.value.Activity?)
  {
    if existing.None? then true
    else
      var delta := CompareTimestamps(incoming.time, existing.value.time);
      if delta < 0 then false
      else if delta > 0 then true
      else
        var statusDelta := ActivityStatusRank(incoming.status) - ActivityStatusRank(existing.value.status);
        if statusDelta != 0 then statusDelta > 0
        else ProgressValue(incoming) >= ProgressValue(existing.value)
  }

  predicate ShouldReplaceThread(existing: Option<Item>, incoming: Item)
    requires incoming.Thread? && (existing.Some? ==> existing.value.Thread?)
  {
    if existing.None? then true
    else
      var delta := CompareTimestamps(incoming.time, existing.value.time);
      if delta < 0 then false
      else if delta > 0 then true
      else if MessageCount(incoming) != MessageCount(existing.value) then
        MessageCount(incoming) >= MessageCount(existing.value)
      else true
  }

  /** One kind of item per list. */
  predicate SameKind(a: Item, b: Item) {
    a.Activity? <==> b.Activity?
  }

  predicate ShouldReplace(existing: Option<Item>, incoming: Item)
    requires existing.Some? ==> SameKind(existing.value, incoming)
  {
    if incoming.Activity? then ShouldReplaceActivity(existing, incoming) else ShouldReplaceThread(existing, incoming)
  }

  function Find(items: seq<Item>, id: string): (r: Option<Item>)
    ensures r.Some? ==> r.value in items && r.value.id == id
    ensures r.None? ==> forall x | x in items :: x.id != id
  {
    if items == [] then None else if items[0].id == id then Some(items[0]) else Find(items[1..], id)
  }

  function WithoutId(items: seq<Item>, id: string): (r: seq<Item>)
    ensures forall x | x in r :: x in items && x.id != id
    ensures forall x | x in items && x.id != id :: x in r
  {
    if items == [] then [] else (if items[0].id == id then [] else [items[0]]) + WithoutId(items[1..], id)
  }

  predicate Dated(items: seq<Item>) {
    forall x | x in items :: x.time.Some?
  }

  /** Stable: an item goes before those that follow it in the input and are not newer. */
  function Insert(x: Item, sorted: seq<Item>): seq<Item>
    requires x.time.Some? && Dated(sorted)
  {
    if sorted == [] || x.time.value >= sorted[0].time.value then [x] + sorted
    else [sorted[0]] + Insert(x, sorted[1..])
  }

  lemma SplitFirst(items: seq<Item>)
    requires items != []
    ensures items[0] in items && forall x | x in items[1..] :: x in items
    ensures multiset(items) == multiset(items[1..]) + multiset{items[0]}
  {
    assert items == [items[0]] + items[1..];
  }

  lemma InsertAdds(x: Item, sorted: seq<Item>)
    requires x.time.Some? && Dated(sorted)
    ensures multiset(Insert(x, sorted)) == multiset(sorted) + multiset{x} && Dated(Insert(x, sorted))
  {
    if sorted != [] && x.time.value < sorted[0].time.value {
      InsertAdds(x, sorted[1..]);
      assert sorted == [sorted[0]] + sorted[1..];
    }
  }

  function SortDesc(items: seq<Item>): (r: seq<Item>)
    requires Dated(items)
    ensures multiset(r) == multiset(items) && Dated(r)
  {
    if items == [] then []
    else
      SplitFirst(items);
      var rest := SortDesc(items[1..]);
      InsertAdds(items[0], rest);
      Insert(items[0], rest)
  }

  predicate NewestFirst(items: seq<Item>)
    requires Dated(items)
  {
    forall i, j | 0 <= i < j < |items| :: items[i].time.value >= items[j].time.value
  }

  predicate NotNewerThan(items: seq<Item>, bound: int)
    requires Dated(items)
  {
    forall i | 0 <= i < |items| :: items[i].time.value <= bound
  }

  lemma {:induction false} InsertStaysBelow(bound: int, x: Item, sorted: seq<Item>)
    requires x.time.Some? && Dated(sorted) && x.time.value <= bound && NotNewerThan(sorted, bound)
    ensures Dated(Insert(x, sorted)) && NotNewerThan(Insert(x, sorted), bound)
  {
    if sorted != [] && x.time.value < sorted[0].time.value {
      assert Dated(sorted[1..]) && NotNewerThan(sorted[1..], bound);
      InsertStaysBelow(bound, x, sorted[1..]);
    }
  }

  lemma {:induction false} InsertSorts(x: Item, sorted: seq<Item>)
    requires x.time.Some? && Dated(sorted) && NewestFirst(sorted)
    ensures Dated(Insert(x, sorted)) && NewestFirst(Insert(x, sorted))
  {
    if sorted != [] && x.time.value < sorted[0].time.value {
      assert Dated(sorted[1..]) && NewestFirst(sorted[1..]) && NotNewerThan(sorted[1..], sorted[0].time.value);
      InsertSorts(x, sorted[1..]);
      InsertStaysBelow(sorted[0].time.value, x, sorted[1..]);
    }
  }

  /** Sorting puts the newest first, whatever ties there are. */
  lemma {:induction false} SortedNewestFirst(items: seq<Item>)
    requires Dated(items)
    ensures NewestFirst(SortDesc(items))
  {
    if items != [] {
      SortedNewestFirst(items[1..]);
      InsertSorts(items[0], SortDesc(items[1..]));
    }
  }

  function Updated(items: seq<Item>, incoming: Item): seq<Item>
    requires Dated(items) && incoming.time.Some?
  {
    SortDesc([incoming] + WithoutId(items, incoming.id))
  }

  predicate AllOfKind(items: seq<Item>, incoming: Item) {
    forall x | x in items :: SameKind(x, incoming)
  }

  function Take(items: seq<Item>, limit: nat): seq<Item> {
    if |items| <= limit then items else items[..limit]
  }

  /** `upsertWorkspaceActivityList`, for items of either kind. */
  function Upsert(items: seq<Item>, incoming: Item, limit: nat): seq<Item>
    requires Dated(items) && incoming.time.Some? && AllOfKind(items, incoming)
  {
    if ShouldReplace(Find(items, incoming.id), incoming) then Take(Updated(items, incoming), limit) else items
  }

  /** The thread list, which is never cut. */
  function UpsertThread(items: seq<Item>, incoming: Item): seq<Item>
    requires Dated(items) && incoming.time.Some? && AllOfKind(items, incoming) && incoming.Thread?
  {
    if ShouldReplace(Find(items, incoming.id), incoming) then Updated(items, incoming) else items
  }

  // ---------- The simple map the lists stand for ----------

  /** The order in which one item of an id supersedes another. */
  predicate KeyLe(a: Item, b: Item)
    requires a.time.Some? && b.time.Some? && SameKind(a, b)
  {
    a.time.value < b.time.value
    || (a.time == b.time
        && if a.Activity? then
             ActivityStatusRank(a.status) < ActivityStatusRank(b.status)
             || (ActivityStatusRank(a.status) == ActivityStatusRank(b.status) && ProgressValue(a) <= ProgressValue(b))
           else MessageCount(a) <= MessageCount(b))
  }

  lemma ReplacesByKey(existing: Item, incoming: Item)
    requires existing.time.Some? && incoming.time.Some? && SameKind(existing, incoming)
    ensures ShouldReplace(Some(existing), incoming) <==> KeyLe(existing, incoming)
  {
  }

  /** A stream of events of one kind, with parsable timestamps. */
  predicate Stream(events: seq<Item>) {
    Dated(events) && forall x, y | x in events && y in events :: SameKind(x, y)
  }

  predicate DistinctTimes(events: seq<Item>) {
    forall x, y | x in events && y in events && x.id != y.id :: x.time != y.time
  }

  /** Timestamps are distinct across ids, and the items of one id are told apart by their keys. */
  predicate Distinguished(events: seq<Item>)
    requires Stream(events)
  {
    DistinctTimes(events)
    && forall x, y | x in events && y in events && x.id == y.id && KeyLe(x, y) && KeyLe(y, x) :: x == y
  }

  /** Every event replaces what is known of its id unless that is ahead of it; nothing is ever dropped. */
  function Latest(events: seq<Item>): (m: map<string, Item>)
    requires Stream(events)
    ensures forall id | id in m :: m[id] in events && m[id].id == id
    decreases |events|
  {
    if events == [] then map[]
    else
      var before, e := Latest(events[..|events| - 1]), events[|events| - 1];
      if e.id in before && !KeyLe(before[e.id], e) then before else before[e.id := e]
  }

  lemma UpsertStays(items: seq<Item>, e: Item, limit: nat)
    requires Dated(items) && e.time.Some? && AllOfKind(items, e)
    ensures forall x | x in Upsert(items, e, limit) :: x in items || x == e
  {
    var rest := WithoutId(items, e.id);
    var sorted := Updated(items, e);
    forall x | x in sorted
      ensures x in items || x == e
    {
      assert x in multiset(sorted);
      assert x in multiset([e] + rest);
    }
  }

  /** Folding a stream through the truncated list. */
  function Kept(events: seq<Item>, limit: nat): (r: seq<Item>)
    requires Stream(events)
    ensures forall x | x in r :: x in events
    decreases |events|
  {
    if events == [] then []
    else
      var before, e := Kept(events[..|events| - 1], limit), events[|events| - 1];
      UpsertStays(before, e, limit);
      Upsert(before, e, limit)
  }

  /** The list holds the newest entries of the map, newest first: as many as the limit allows. */
  ghost predicate IsNewest(items: seq<Item>, m: map<string, Item>, limit: nat) {
    && Dated(items)
    && (forall i, j | 0 <= i < j < |items| :: items[i].time.value > items[j].time.value)
    && (forall x | x in items :: x.id in m && m[x.id] == x)
    && |items| <= limit
    && (forall id | id in m && m[id] !in items ::
          m[id].time.Some? && |items| == limit && forall x | x in items :: x.time.value > m[id].time.value)
  }
}
