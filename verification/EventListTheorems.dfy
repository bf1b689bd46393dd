/** The truncated list is the top of the full map, whatever the order and repetition of the events. */
module EventListTheorems {
  import opened Wrappers
  import opened EventOrdering

  predicate Descending(items: seq<Item>)
    requires Dated(items)
  {
    forall i, j | 0 <= i < j < |items| :: items[i].time.value > items[j].time.value
  }

  predicate TimeIsNew(x: Item, items: seq<Item>) {
    forall y | y in items :: y.time != x.time
  }

  lemma ConsKeepsOrder(x: Item, items: seq<Item>)
    requires x.time.Some? && Dated(items) && Descending(items) && forall y | y in items :: y.time.value < x.time.value
    ensures Dated([x] + items) && Descending([x] + items)
  {
  }

  lemma Members(items: seq<Item>)
    requires items != []
    ensures forall y :: y in items <==> y == items[0] || y in items[1..]
  {
    assert items == [items[0]] + items[1..];
  }

  lemma InsertMembers(x: Item, items: seq<Item>)
    requires x.time.Some? && Dated(items)
    ensures var r := Insert(x, items); Dated(r) && |r| == |items| + 1 && forall y :: y in r <==> y in items || y == x
  {
    hide Insert;
    InsertAdds(x, items);
    var r := Insert(x, items);
    assert |multiset(r)| == |r| && |multiset(items)| == |items|;
    forall y
      ensures y in r <==> y in items || y == x
    {
      assert y in r <==> y in multiset(r);
      assert y in items <==> y in multiset(items);
    }
  }

  lemma InsertBehind(x: Item, items: seq<Item>)
    requires x.time.Some? && Dated(items) && items != [] && x.time.value < items[0].time.value
    ensures Insert(x, items) == [items[0]] + Insert(x, items[1..])
  {
  }

  lemma {:induction false} InsertKeepsOrder(x: Item, items: seq<Item>)
    requires x.time.Some? && Dated(items) && Descending(items) && TimeIsNew(x, items)
    ensures var r := Insert(x, items);
            && Dated(r) && Descending(r) && |r| == |items| + 1
            && (forall y :: y in r <==> y in items || y == x)
  {
    InsertMembers(x, items);
    if items != [] && x.time.value < items[0].time.value {
      Members(items);
      InsertKeepsOrder(x, items[1..]);
      hide Insert;
      assert Insert(x, items) == [items[0]] + Insert(x, items[1..]) by { InsertBehind(x, items); }
      ConsKeepsOrder(items[0], Insert(x, items[1..]));
    } else {
      assert items != [] ==> items[0] in items && items[0].time != x.time;
      ConsKeepsOrder(x, items);
    }
  }

  lemma {:induction false} SortedIsFixed(items: seq<Item>)
    requires Dated(items) && Descending(items)
    ensures SortDesc(items) == items
  {
    if items != [] {
      SortedIsFixed(items[1..]);
      if items[1..] != [] {
        assert items[1..][0] == items[1];
      }
    }
  }

  lemma {:induction false} WithoutKeepsOrder(items: seq<Item>, id: string)
    requires Dated(items) && Descending(items)
    ensures Descending(WithoutId(items, id))
  {
    if items != [] {
      WithoutKeepsOrder(items[1..], id);
      var rest := WithoutId(items[1..], id);
      forall j | 0 <= j < |rest|
        ensures items[0].time.value > rest[j].time.value
      {
        assert rest[j] in items[1..];
      }
    }
  }

  lemma {:induction false} WithoutLength(items: seq<Item>, id: string)
    requires Dated(items) && Descending(items) && forall x, y | x in items && y in items && x.id == y.id :: x == y
    ensures |WithoutId(items, id)| == |items| - (if Find(items, id).Some? then 1 else 0)
  {
    if items != [] {
      WithoutLength(items[1..], id);
      if items[0].id == id {
        assert forall j | 0 < j < |items| :: items[j] in items && items[0] in items && items[j].id != id;
      }
    }
  }

  lemma UpdatedIsInserted(items: seq<Item>, e: Item)
    requires Dated(items) && Descending(items) && e.time.Some?
    ensures Updated(items, e) == Insert(e, WithoutId(items, e.id))
  {
    var rest := WithoutId(items, e.id);
    WithoutKeepsOrder(items, e.id);
    SortedIsFixed(rest);
    assert ([e] + rest)[1..] == rest;
  }

  /** The newest entries after one more item, as sets of items: the cut keeps the top. */
  lemma CutIsNewest(full: seq<Item>, m: map<string, Item>, limit: nat)
    requires Dated(full) && Descending(full)
    requires forall x | x in full :: x.id in m && m[x.id] == x
    requires forall id | id in m && m[id] !in full ::
               m[id].time.Some? && |full| >= limit && forall x | x in Take(full, limit) :: x.time.value > m[id].time.value
    ensures IsNewest(Take(full, limit), m, limit)
  {
  }

  lemma {:induction false} NothingToRemove(items: seq<Item>, id: string)
    requires forall x | x in items :: x.id != id
    ensures WithoutId(items, id) == items
  {
    if items != [] {
      NothingToRemove(items[1..], id);
      assert items[0] in items;
    }
  }

  lemma {:induction false} OldestGoesLast(e: Item, items: seq<Item>)
    requires e.time.Some? && Dated(items) && forall x | x in items :: x.time.value > e.time.value
    ensures Insert(e, items) == items + [e]
  {
    if items != [] {
      assert items[0] in items;
      OldestGoesLast(e, items[1..]);
    }
  }

  /** An event behind an entry that has already been cut off is older than everything kept. */
  lemma StaleEventIsCut(items: seq<Item>, m: map<string, Item>, e: Item, limit: nat)
    requires IsNewest(items, m, limit) && e.time.Some?
    requires e.id in m && m[e.id].id == e.id && m[e.id].time.Some? && SameKind(m[e.id], e)
    requires Find(items, e.id).None? && !KeyLe(m[e.id], e)
    ensures Take(Updated(items, e), limit) == items
  {
    assert m[e.id] !in items;
    assert WithoutId(items, e.id) == items by {
      NothingToRemove(items, e.id);
    }
    UpdatedIsInserted(items, e);
    OldestGoesLast(e, items);
  }

  /** An entry that was cut off before stays older than whatever is kept now. */
  lemma CutOffIsOlder(items: seq<Item>, m: map<string, Item>, e: Item, limit: nat, id: string)
    requires IsNewest(items, m, limit) && e.time.Some? && id in m && id != e.id && m[id] !in items
    requires e.id in m ==> m[e.id].time.Some? && SameKind(m[e.id], e) && KeyLe(m[e.id], e)
    requires var full := Updated(items, e);
             Dated(full) && Descending(full) && (forall y :: y in full <==> y in WithoutId(items, e.id) || y == e)
             && |full| == |items| + (if Find(items, e.id).Some? then 0 else 1)
    ensures forall x | x in Take(Updated(items, e), limit) :: x.time.value > m[id].time.value
  {
    var full := Updated(items, e);
    var cut := Take(full, limit);
    var t := m[id].time.value;
    forall x | x in cut
      ensures x.time.value > t
    {
      if x == e {
        var found := Find(items, e.id);
        if found.Some? {
          assert m[e.id] == found.value;
        } else {
          // The list grew past the limit, and what fell off its end is an entry newer than the one cut off before.
          var i :| 0 <= i < |cut| && cut[i] == e;
          var last := full[limit];
          assert last in full && full[i].time.value > last.time.value;
          assert last in items;
        }
      } else {
        assert x in full && x in items;
      }
    }
  }

  lemma FreshEventIsPlaced(items: seq<Item>, m: map<string, Item>, e: Item, limit: nat)
    requires IsNewest(items, m, limit) && e.time.Some?
    requires forall id | id in m :: m[id].id == id && m[id].time.Some? && SameKind(m[id], e)
    requires e.id in m ==> KeyLe(m[e.id], e)
    requires var full := Updated(items, e);
             Dated(full) && Descending(full) && (forall y :: y in full <==> y in WithoutId(items, e.id) || y == e)
             && |full| == |items| + (if Find(items, e.id).Some? then 0 else 1)
    ensures IsNewest(Take(Updated(items, e), limit), m[e.id := e], limit)
  {
    var full := Updated(items, e);
    var n := m[e.id := e];
    forall id | id in n && n[id] !in full
      ensures n[id].time.Some? && |full| >= limit && forall x | x in Take(full, limit) :: x.time.value > n[id].time.value
    {
      assert id != e.id && n[id] == m[id] && m[id] !in items;
      CutOffIsOlder(items, m, e, limit, id);
    }
    CutIsNewest(full, n, limit);
  }

  /** One event: the truncated list stays the top of the map. */
  lemma UpsertKeepsNewest(items: seq<Item>, m: map<string, Item>, e: Item, limit: nat)
    requires IsNewest(items, m, limit) && e.time.Some? && AllOfKind(items, e)
    requires forall id | id in m :: m[id].id == id && m[id].time.Some? && SameKind(m[id], e)
    requires forall id | id in m && id != e.id :: m[id].time != e.time
    ensures IsNewest(Upsert(items, e, limit),
                     if e.id in m && !KeyLe(m[e.id], e) then m else m[e.id := e], limit)
  {
    var found := Find(items, e.id);
    if found.Some? {
      ReplacesByKey(found.value, e);
    }
    if ShouldReplace(found, e) {
      var rest := WithoutId(items, e.id);
      WithoutKeepsOrder(items, e.id);
      UpdatedIsInserted(items, e);
      forall y | y in rest
        ensures y.time != e.time
      {
        assert m[y.id] == y;
      }
      InsertKeepsOrder(e, rest);
      WithoutLength(items, e.id);
      if e.id in m && !KeyLe(m[e.id], e) {
        StaleEventIsCut(items, m, e, limit);
      } else {
        FreshEventIsPlaced(items, m, e, limit);
      }
    }
  }

  lemma KeyLeIsTransitive(a: Item, b: Item, c: Item)
    requires a.time.Some? && b.time.Some? && c.time.Some? && SameKind(a, b) && SameKind(b, c)
    requires KeyLe(a, b) && KeyLe(b, c)
    ensures KeyLe(a, c)
  {
  }

  lemma KeyLeIsTotal(a: Item, b: Item)
    requires a.time.Some? && b.time.Some? && SameKind(a, b)
    ensures KeyLe(a, b) || KeyLe(b, a)
  {
  }

  /** The map has an entry for every id that occurs, and it is an event no other event of the id is ahead of. */
  lemma {:induction false} LatestIsOneOfEach(events: seq<Item>)
    requires Stream(events)
    ensures var m := Latest(events);
            && (forall id | id in m :: m[id] in events && m[id].id == id && m[id].time.Some?)
            && (forall x | x in events :: x.id in m && KeyLe(x, m[x.id]))
    decreases |events|
  {
    if events != [] {
      hide KeyLe;
      var n := |events| - 1;
      var past, e := events[..n], events[n];
      assert events == past + [e];
      LatestIsOneOfEach(past);
      var before, m := Latest(past), Latest(events);
      forall x | x in events
        ensures x.id in m && KeyLe(x, m[x.id])
      {
        if x in past {
          if m[x.id] != before[x.id] {
            KeyLeIsTransitive(x, before[x.id], e);
          }
        } else if e.id in before {
          KeyLeIsTotal(before[e.id], e);
          KeyLeIsTotal(e, e);
        } else {
          KeyLeIsTotal(e, e);
        }
      }
    }
  }

  /**
   Folding any stream whose timestamps differ across ids through the list truncated to `limit` gives exactly
   the `limit` newest entries of the untruncated map that keeps the greatest item of each id.
   */
  lemma {:induction false} TruncatedListIsTopOfMap(events: seq<Item>, limit: nat)
    requires Stream(events) && DistinctTimes(events)
    ensures IsNewest(Kept(events, limit), Latest(events), limit)
    decreases |events|
  {
    if events != [] {
      var n := |events| - 1;
      assert events == events[..n] + [events[n]];
      assert forall x | x in events[..n] :: x in events;
      hide IsNewest, Upsert, KeyLe;
      TruncatedListIsTopOfMap(events[..n], limit);
      LatestIsOneOfEach(events[..n]);
      var e := events[n];
      assert e in events;
      UpsertKeepsNewest(Kept(events[..n], limit), Latest(events[..n]), e, limit);
    }
  }

  lemma SharedEntryComesLater(one: seq<Item>, other: seq<Item>, k: nat, j: nat)
    requires Dated(one) && Descending(one) && k < |one| && k <= |other| && j < |other|
    requires one[..k] == other[..k] && other[j] == one[k]
    ensures j >= k
  {
    assert forall i | 0 <= i < k :: other[i] == other[..k][i] && one[..k][i] == one[i];
  }

  lemma NewestIsDescending(items: seq<Item>, m: map<string, Item>, limit: nat)
    requires IsNewest(items, m, limit)
    ensures Dated(items) && Descending(items) && forall x <- items :: x.id in m && m[x.id] == x
  {
  }

  /** An entry of the map that is not in the list is older than all of it. */
  lemma MissingIsOlder(items: seq<Item>, m: map<string, Item>, limit: nat, id: string, k: nat)
    requires IsNewest(items, m, limit) && id in m && m[id] !in items && k < |items|
    ensures items[k].time.Some? && m[id].time.Some? && m[id].time.value < items[k].time.value
  {
    assert items[k] in items;
  }

  /** After equal prefixes, the next entry of one list is not newer than that of the other. */
  lemma NotNewer(one: seq<Item>, other: seq<Item>, m: map<string, Item>, limit: nat, k: nat)
    requires IsNewest(one, m, limit) && IsNewest(other, m, limit) && k < |one| && k < |other|
    requires one[..k] == other[..k]
    ensures one[k].time.Some? && other[k].time.Some? && one[k].time.value <= other[k].time.value
  {
    hide IsNewest;
    NewestIsDescending(one, m, limit);
    NewestIsDescending(other, m, limit);
    var x := one[k];
    assert x in one && m[x.id] == x;
    if x in other {
      var j :| 0 <= j < |other| && other[j] == x;
      SharedEntryComesLater(one, other, k, j);
    } else {
      MissingIsOlder(other, m, limit, x.id, k);
    }
  }

  lemma {:induction false} SamePrefix(one: seq<Item>, other: seq<Item>, m: map<string, Item>, limit: nat, n: nat)
    requires IsNewest(one, m, limit) && IsNewest(other, m, limit) && n <= |one| && n <= |other|
    requires forall i, j | i in m && j in m && i != j :: m[i].time != m[j].time
    ensures one[..n] == other[..n]
    decreases n
  {
    if n > 0 {
      SamePrefix(one, other, m, limit, n - 1);
      NotNewer(one, other, m, limit, n - 1);
      NotNewer(other, one, m, limit, n - 1);
      var x, y := one[n - 1], other[n - 1];
      assert x in one && y in other;
      assert x.id == y.id;
      assert one[..n] == one[..n - 1] + [x] && other[..n] == other[..n - 1] + [y];
    }
  }

  lemma LongerDiffers(one: seq<Item>, other: seq<Item>, m: map<string, Item>, limit: nat)
    requires IsNewest(one, m, limit) && IsNewest(other, m, limit) && |one| < |other|
    ensures one != other[..|one|]
  {
    var x := other[|one|];
    assert x in other && m[x.id] == x;
    var i :| 0 <= i < |one| && one[i] == x;
    assert other[..|one|][i].time.value > x.time.value;
  }

  /** There is only one list of the newest entries of a map whose timestamps are distinct. */
  lemma NewestIsUnique(one: seq<Item>, other: seq<Item>, m: map<string, Item>, limit: nat)
    requires IsNewest(one, m, limit) && IsNewest(other, m, limit)
    requires forall i, j | i in m && j in m && i != j :: m[i].time != m[j].time
    ensures one == other
  {
    var n := if |one| <= |other| then |one| else |other|;
    SamePrefix(one, other, m, limit, n);
    assert one[..|one|] == one && other[..|other|] == other;
    if |one| < |other| {
      LongerDiffers(one, other, m, limit);
    } else if |other| < |one| {
      LongerDiffers(other, one, m, limit);
    }
  }

  lemma SameLatest(events: seq<Item>, again: seq<Item>)
    requires Stream(events) && Distinguished(events) && Stream(again) && Distinguished(again)
    requires forall x :: x in events <==> x in again
    ensures Latest(events) == Latest(again)
  {
    LatestIsOneOfEach(events);
    LatestIsOneOfEach(again);
    var m, n := Latest(events), Latest(again);
    forall id | id in m
      ensures id in n && m[id] == n[id]
    {
      assert m[id] in again;
      assert n[id] in events;
    }
    forall id | id in n
      ensures id in m
    {
      assert n[id] in events;
    }
  }

  /** Delivery order and duplicates do not matter: the same events in any order and number give the same list. */
  lemma DeliveryDoesNotMatter(events: seq<Item>, again: seq<Item>, limit: nat)
    requires Stream(events) && Distinguished(events) && Stream(again)
    requires forall x :: x in events <==> x in again
    ensures Kept(events, limit) == Kept(again, limit)
  {
    assert Distinguished(again);
    SameLatest(events, again);
    TruncatedListIsTopOfMap(events, limit);
    TruncatedListIsTopOfMap(again, limit);
    LatestIsOneOfEach(events);
    NewestIsUnique(Kept(events, limit), Kept(again, limit), Latest(events), limit);
  }

  // ---------- The thread list ----------

  lemma WithoutIsShorter(items: seq<Item>, id: string)
    ensures |WithoutId(items, id)| <= |items|
  {
  }

  lemma UpdatedGrowsByOne(items: seq<Item>, e: Item)
    requires Dated(items) && e.time.Some?
    ensures |Updated(items, e)| <= |items| + 1
  {
    var unsorted := [e] + WithoutId(items, e.id);
    WithoutIsShorter(items, e.id);
    assert |multiset(SortDesc(unsorted))| == |multiset(unsorted)|;
  }

  /** An upsert into a list with room to spare cuts nothing off. */
  lemma RoomyUpsert(items: seq<Item>, e: Item, limit: nat)
    requires Dated(items) && e.time.Some? && AllOfKind(items, e) && |items| < limit
    ensures Upsert(items, e, limit) == if ShouldReplace(Find(items, e.id), e) then Updated(items, e) else items
    ensures |Upsert(items, e, limit)| <= |items| + 1
    ensures e.Thread? ==> Upsert(items, e, limit) == UpsertThread(items, e)
  {
    UpdatedGrowsByOne(items, e);
  }

  /** A limit beyond the number of events never cuts anything off. */
  lemma {:induction false} LargeLimitsAgree(events: seq<Item>, limit: nat)
    requires Stream(events) && limit > |events|
    ensures Kept(events, limit) == Kept(events, |events| + 1) && |Kept(events, limit)| <= |events|
    decreases |events|
  {
    if events != [] {
      hide Upsert;
      var past, e := events[..|events| - 1], events[|events| - 1];
      LargeLimitsAgree(past, limit);
      LargeLimitsAgree(past, |events| + 1);
      RoomyUpsert(Kept(past, limit), e, limit);
      RoomyUpsert(Kept(past, limit), e, |events| + 1);
    }
  }

  /** Folding a stream of thread summaries through the untruncated list. */
  function KeptThreads(events: seq<Item>): (r: seq<Item>)
    requires Stream(events) && forall x | x in events :: x.Thread?
    ensures |r| <= |events|
    ensures r == Kept(events, |events| + 1)
    decreases |events|
  {
    if events == [] then []
    else
      var before, e := KeptThreads(events[..|events| - 1]), events[|events| - 1];
      LargeLimitsAgree(events[..|events| - 1], |events| + 1);
      RoomyUpsert(before, e, |events| + 1);
      UpsertThread(before, e)
  }

  /** The thread list holds every thread once, at its greatest summary, newest first. */
  lemma ThreadListIsWholeMap(events: seq<Item>)
    requires Stream(events) && DistinctTimes(events) && forall x | x in events :: x.Thread?
    ensures IsNewest(KeptThreads(events), Latest(events), |events| + 1)
    ensures forall id | id in Latest(events) :: Latest(events)[id] in KeptThreads(events)
  {
    TruncatedListIsTopOfMap(events, |events| + 1);
  }

  // ---------- Which item wins, in the words of the events ----------

  predicate Finished(status: string) {
    status in {"success", "completed", "failed", "cancelled", "timed_out"}
  }

  predicate Underway(status: string) {
    status in {"running", "awaiting_user_input"}
  }

  predicate Known(status: string) {
    Finished(status) || Underway(status) || status == "pending"
  }

  /** The second status is later than the first: pending, under way, finished; an unknown one comes before all. */
  predicate Advances(from: string, to: string) {
    if Finished(from) then false
    else if Underway(from) then Finished(to)
    else if from == "pending" then Finished(to) || Underway(to)
    else Known(to)
  }

  predicate NotBehind(existing: Option<real>, incoming: Option<real>) {
    match (existing, incoming)
    case (None, None) => true
    case (None, Some(y)) => y >= -1.0
    case (Some(x), None) => x <= -1.0
    case (Some(x), Some(y)) => x <= y
  }

  /**
   An activity of the same time is replaced exactly by one whose status is later or, at the same stage, whose progress is
   not behind; at different times the later one wins, and one without a time loses to any that has one.
   */
  lemma StagesOnlyAdvance(existing: Item, incoming: Item)
    requires existing.Activity? && incoming.Activity?
    ensures existing.time == incoming.time ==>
              (ShouldReplace(Some(existing), incoming) <==>
                 Advances(existing.status, incoming.status)
                 || (!Advances(incoming.status, existing.status) && NotBehind(existing.progress, incoming.progress)))
    ensures existing.time != incoming.time ==>
              (ShouldReplace(Some(existing), incoming) <==>
                 incoming.time.Some? && (existing.time.None? || existing.time.value < incoming.time.value))
  {
  }

  /** A finished activity stays: an event of its time that says less leaves the list as it is, however long that is. */
  lemma FinishedStays(items: seq<Item>, x: Item, e: Item, limit: nat)
    requires Dated(items) && AllOfKind(items, e) && e.Activity? && e.time.Some?
    requires x in items && x.id == e.id && forall y | y in items && y.id == e.id :: y == x
    requires x.time == e.time && Finished(x.status) && !Finished(e.status)
    ensures Upsert(items, e, limit) == items
  {
    assert Find(items, e.id) == Some(x);
    StagesOnlyAdvance(x, e);
  }

  /** A thread summary of the same time is replaced exactly by one with at least as many messages; none counts as zero. */
  lemma ThreadsOnlyGrow(existing: Item, incoming: Item)
    requires existing.Thread? && incoming.Thread?
    ensures existing.time == incoming.time ==>
              (ShouldReplace(Some(existing), incoming) <==>
                 (match (existing.messageCount, incoming.messageCount)
                  case (None, None) => true
                  case (None, Some(y)) => y >= 0
                  case (Some(x), None) => x <= 0
                  case (Some(x), Some(y)) => x <= y))
    ensures existing.time != incoming.time ==>
              (ShouldReplace(Some(existing), incoming) <==>
                 incoming.time.Some? && (existing.time.None? || existing.time.value < incoming.time.value))
  {
  }

  lemma {:induction false} SortKeepsSorted(items: seq<Item>)
    requires Dated(items) && NewestFirst(items)
    ensures SortDesc(items) == items
  {
    if items != [] {
      SortKeepsSorted(items[1..]);
    }
  }

  lemma {:induction false} InsertPosition(newer: seq<Item>, x: Item, rest: seq<Item>)
    requires x.time.Some? && Dated(newer) && Dated(rest) && Dated(newer + rest)
    requires forall y | y in newer :: y.time.value > x.time.value
    requires rest != [] ==> rest[0].time.value <= x.time.value
    ensures Insert(x, newer + rest) == newer + [x] + rest
  {
    if newer == [] {
      assert newer + rest == rest && newer + [x] + rest == [x] + rest;
    } else {
      assert newer[0] in newer && (newer + rest)[1..] == newer[1..] + rest;
      InsertPosition(newer[1..], x, rest);
      assert newer + [x] + rest == [newer[0]] + (newer[1..] + [x] + rest);
    }
  }

  lemma {:induction false} WithoutSplits(first: seq<Item>, second: seq<Item>, id: string)
    ensures WithoutId(first + second, id) == WithoutId(first, id) + WithoutId(second, id)
  {
    if first == [] {
      assert first + second == second;
    } else {
      assert (first + second)[1..] == first[1..] + second;
      WithoutSplits(first[1..], second, id);
    }
  }

  lemma OnlyItemLeaves(x: Item)
    ensures WithoutId([x], x.id) == []
  {
    assert [x][1..] == [];
  }

  /** The item of an id leaves its place, and everything else keeps its order. */
  lemma KnownItemLeaves(before: seq<Item>, x: Item, after: seq<Item>)
    requires WithoutId(before, x.id) == before && WithoutId(after, x.id) == after
    ensures WithoutId(before + [x] + after, x.id) == before + after
  {
    hide WithoutId;
    WithoutSplits(before + [x], after, x.id);
    WithoutSplits(before, [x], x.id);
    OnlyItemLeaves(x);
    assert before + [] == before;
  }

  lemma ArrivalIsInserted(items: seq<Item>, e: Item)
    requires Dated(items) && e.time.Some? && NewestFirst(WithoutId(items, e.id))
    ensures Updated(items, e) == Insert(e, WithoutId(items, e.id))
  {
    var rest := WithoutId(items, e.id);
    SortKeepsSorted(rest);
    assert ([e] + rest)[1..] == rest;
  }

  lemma KnownLeaves(before: seq<Item>, known: seq<Item>, after: seq<Item>, id: string)
    requires |known| <= 1 && forall x | x in known :: x.id == id
    requires (forall x | x in before :: x.id != id) && (forall x | x in after :: x.id != id)
    ensures WithoutId(before + known + after, id) == before + after
  {
    NothingToRemove(before, id);
    NothingToRemove(after, id);
    if known == [] {
      hide WithoutId;
      WithoutSplits(before, after, id);
      assert before + known == before;
    } else {
      assert known == [known[0]];
      KnownItemLeaves(before, known[0], after);
    }
  }

  /**
   An item that is taken into a sorted list goes before everything that is not newer than it, in particular before its
   equals; what was there under its id is gone, and everything else keeps its order, whatever ties there are.
   */
  lemma ArrivalGoesBeforeItsEquals(e: Item, before: seq<Item>, known: seq<Item>, after: seq<Item>, newer: seq<Item>, rest: seq<Item>)
    requires |known| <= 1 && forall x | x in known :: x.id == e.id
    requires (forall x | x in before :: x.id != e.id) && (forall x | x in after :: x.id != e.id)
    requires e.time.Some? && Dated(before + known + after) && Dated(newer) && Dated(rest)
    requires before + after == newer + rest && Dated(before + after) && NewestFirst(before + after)
    requires forall x | x in newer :: x.time.value > e.time.value
    requires rest != [] ==> rest[0].time.value <= e.time.value
    ensures Updated(before + known + after, e) == newer + [e] + rest
  {
    hide WithoutId, Updated, Insert;
    KnownLeaves(before, known, after, e.id);
    ArrivalIsInserted(before + known + after, e);
    InsertPosition(newer, e, rest);
  }
}
