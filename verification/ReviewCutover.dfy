/**
 The review-output cutover: every review item gets an output key, the newest open item of a mission's
 key takes the oldest open title, the other open ones are superseded, and the pending counts are redone.
 Window functions are modelled by the rows that come before in their order.
 */
module ReviewCutover {
  import opened Wrappers
  import Text

  const KEY_LENGTH := 160
  const SUPERSEDED_DECISION := "A newer candidate now represents this output."

  datatype Status = Committed | Superseded | PendingReview | Other(name: string)

  datatype Item = Item(
    id: string,
    missionId: string,
    previewOutputKey: Option<string>,
    previewArtifactKind: Option<string>,
    targetKind: string,
    outputKey: Option<string>,
    title: string,
    status: Status,
    createdAt: int,
    suggestedSelected: bool,
    decision: string,
    decidedBy: Option<string>,
    decidedAt: Option<int>,
    updatedAt: int)

  type Table = seq<Item>

  /** The primary key. */
  predicate UniqueIds(t: Table) {
    forall i, j | 0 <= i < j < |t| :: t[i].id != t[j].id
  }

  // ---------- Output keys ----------

  function NotEmpty(s: Option<string>): Option<string> {
    if s == Some("") then None else s
  }

  function OutputKey(r: Item): string {
    var key, kind := NotEmpty(r.previewOutputKey), NotEmpty(r.previewArtifactKind);
    if key.Some? then key.value else if kind.Some? then kind.value else r.targetKind + ":" + r.id
  }

  /** The column holds at most 160 characters; a longer key fails the statement. */
  predicate KeysFit(t: Table) {
    forall r | r in t :: |OutputKey(r)| <= KEY_LENGTH
  }

  function Keyed(t: Table): Table {
    seq(|t|, i requires 0 <= i < |t| => t[i].(outputKey := Some(OutputKey(t[i]))))
  }

  // ---------- Windows ----------

  predicate IsOpen(r: Item) {
    r.status != Committed
  }

  predicate SameOutput(a: Item, b: Item) {
    a.missionId == b.missionId && a.outputKey == b.outputKey
  }

  /** `ORDER BY created_at, review_item_id`. */
  predicate Older(a: Item, b: Item) {
    a.createdAt < b.createdAt || (a.createdAt == b.createdAt && Text.Before(a.id, b.id))
  }

  lemma OlderIsTotal(a: Item, b: Item)
    requires a.id != b.id
    ensures Older(a, b) || Older(b, a)
  {
    Text.BeforeIsTotal(a.id, b.id);
  }

  lemma OlderIsAsymmetric(a: Item, b: Item)
    requires Older(a, b)
    ensures !Older(b, a)
  {
    if a.createdAt == b.createdAt {
      Text.BeforeIsAsymmetric(a.id, b.id);
    }
  }

  lemma OlderIsTransitive(a: Item, b: Item, c: Item)
    requires Older(a, b) && Older(b, c)
    ensures Older(a, c)
  {
    if a.createdAt == b.createdAt == c.createdAt {
      Text.BeforeIsTransitive(a.id, b.id, c.id);
    }
  }

  /** Of the first `n` rows, the open ones of the same output that come after row `i`. */
  function NewerAmong(t: Table, i: nat, n: nat): set<nat>
    requires i < |t| && n <= |t|
  {
    set j: nat | 0 <= j < n && IsOpen(t[j]) && SameOutput(t[j], t[i]) && Older(t[i], t[j])
  }

  function NewerRows(t: Table, i: nat): set<nat>
    requires i < |t|
  {
    NewerAmong(t, i, |t|)
  }

  lemma NewerOneMore(t: Table, i: nat, n: nat)
    requires i < |t| && n < |t|
    ensures var more := IsOpen(t[n]) && SameOutput(t[n], t[i]) && Older(t[i], t[n]);
            |NewerAmong(t, i, n + 1)| == |NewerAmong(t, i, n)| + if more then 1 else 0
  {
    hide Older;
    var more := IsOpen(t[n]) && SameOutput(t[n], t[i]) && Older(t[i], t[n]);
    assert NewerAmong(t, i, n + 1) == NewerAmong(t, i, n) + if more then {n} else {};
  }

  function NewestRank(t: Table, i: nat): nat
    requires i < |t|
  {
    1 + |NewerRows(t, i)|
  }

  lemma ScanStep(t: Table, i: nat, k: nat, best: nat)
    requires i < |t| && k < |t| && best < |t| && Older(t[k], t[best])
    requires forall j | 0 <= j < k && IsOpen(t[j]) && SameOutput(t[j], t[i]) :: !Older(t[j], t[best])
    ensures forall j | 0 <= j <= k && IsOpen(t[j]) && SameOutput(t[j], t[i]) :: !Older(t[j], t[k])
  {
    forall j | 0 <= j <= k && IsOpen(t[j]) && SameOutput(t[j], t[i])
      ensures !Older(t[j], t[k])
    {
      if Older(t[j], t[k]) {
        OlderIsTransitive(t[j], t[k], t[best]);
        if j == k {
          OlderIsAsymmetric(t[j], t[k]);
        }
      }
    }
  }

  /** The row whose title `first_value` picks: scanning the first `n` rows for an older open one of the same output. */
  function OldestRow(t: Table, i: nat, n: nat): (r: nat)
    requires i < |t| && n <= |t| && IsOpen(t[i])
    ensures r < |t| && IsOpen(t[r]) && SameOutput(t[r], t[i])
    ensures forall j | 0 <= j < n && IsOpen(t[j]) && SameOutput(t[j], t[i]) :: !Older(t[j], t[r])
  {
    if n == 0 then i
    else
      var best := OldestRow(t, i, n - 1);
      if IsOpen(t[n - 1]) && SameOutput(t[n - 1], t[i]) && Older(t[n - 1], t[best]) then
        ScanStep(t, i, n - 1, best);
        n - 1
      else best
  }

  function CanonicalTitle(t: Table, i: nat): string
    requires i < |t| && IsOpen(t[i])
  {
    t[OldestRow(t, i, |t|)].title
  }

  // ---------- The statements ----------

  function Retitled(t: Table): (u: Table)
    ensures |u| == |t|
  {
    seq(|t|, i requires 0 <= i < |t| =>
      if IsOpen(t[i]) && NewestRank(t, i) == 1 then t[i].(title := CanonicalTitle(t, i)) else t[i])
  }

  function Supersede(r: Item, now: int): Item {
    r.(status := Superseded, suggestedSelected := false, decision := SUPERSEDED_DECISION, decidedBy := None,
       decidedAt := Some(now), updatedAt := now)
  }

  function SupersededRows(t: Table, now: int): (u: Table)
    ensures |u| == |t|
  {
    seq(|t|, i requires 0 <= i < |t| => if IsOpen(t[i]) && NewestRank(t, i) > 1 then Supersede(t[i], now) else t[i])
  }

  predicate CountsAsPending(r: Item, mission: string) {
    r.missionId == mission && r.status == PendingReview
  }

  function PendingCount(t: Table, mission: string): nat {
    if t == [] then 0
    else
      var n := |t| - 1;
      PendingCount(t[..n], mission) + (if CountsAsPending(t[n], mission) then 1 else 0)
  }

  function Recounted(t: Table, counts: map<string, int>): map<string, int> {
    map mission | mission in counts :: PendingCount(t, mission)
  }

  function Cutover(t: Table, now: int): Table {
    SupersededRows(Retitled(Keyed(t)), now)
  }

  /** How far a statement that goes through the rows has come. */
  ghost predicate Updating(items: Table, before: Table, after: Table, n: nat) {
    && |items| == |before| == |after| && n <= |before|
    && (forall j | 0 <= j < n :: items[j] == after[j])
    && (forall j | n <= j < |before| :: items[j] == before[j])
  }

  lemma NothingUpdated(before: Table, after: Table)
    requires |before| == |after|
    ensures Updating(before, before, after, 0)
  {
  }

  lemma AllUpdated(items: Table, before: Table, after: Table)
    requires Updating(items, before, after, |before|)
    ensures items == after
  {
  }

  lemma UpdateRow(items: Table, before: Table, after: Table, n: nat, row: Item)
    requires Updating(items, before, after, n) && n < |before| && row == after[n]
    ensures Updating(items[n := row], before, after, n + 1)
    ensures row == before[n] ==> Updating(items, before, after, n + 1)
  {
  }

  lemma RetitledAt(t: Table, i: nat)
    requires i < |t|
    ensures Retitled(t)[i] == if IsOpen(t[i]) && NewestRank(t, i) == 1 then t[i].(title := CanonicalTitle(t, i)) else t[i]
  {
    hide NewestRank, CanonicalTitle;
  }

  lemma SupersededAt(t: Table, now: int, i: nat)
    requires i < |t|
    ensures SupersededRows(t, now)[i] == if IsOpen(t[i]) && NewestRank(t, i) > 1 then Supersede(t[i], now) else t[i]
  {
    hide NewestRank, Supersede;
  }

  class Migration {
    var items: Table
    var pendingCounts: map<string, int>

    constructor (items: Table, pendingCounts: map<string, int>)
      ensures this.items == items && this.pendingCounts == pendingCounts
    {
      this.items, this.pendingCounts := items, pendingCounts;
    }

    /** Fills the new column row by row; a key that does not fit undoes the whole statement. */
    method BackfillKeys() returns (ok: bool)
      modifies this`items
      ensures ok <==> KeysFit(old(items))
      ensures items == if ok then Keyed(old(items)) else old(items)
    {
      hide OutputKey, Updating;
      var before := items;
      assert Updating(items, before, Keyed(before), 0) by { NothingUpdated(before, Keyed(before)); }
      for i := 0 to |before|
        invariant |items| == |before| && Updating(items, before, Keyed(before), i)
        invariant forall j | 0 <= j < i :: |OutputKey(before[j])| <= KEY_LENGTH
      {
        var key := OutputKey(before[i]);
        if |key| > KEY_LENGTH {
          items := before;
          return false;
        }
        UpdateRow(items, before, Keyed(before), i, before[i].(outputKey := Some(key)));
        items := items[i := before[i].(outputKey := Some(key))];
      }
      AllUpdated(items, before, Keyed(before));
      return true;
    }

    /** `row_number` over the open rows of an output, newest first. */
    static method RankFromNewest(t: Table, i: nat) returns (rank: nat)
      requires i < |t|
      ensures rank == NewestRank(t, i)
    {
      hide Older;
      rank := 1;
      for j := 0 to |t|
        invariant rank == 1 + |NewerAmong(t, i, j)|
      {
        NewerOneMore(t, i, j);
        if t[j].status != Committed && SameOutput(t[j], t[i]) && Older(t[i], t[j]) {
          rank := rank + 1;
        }
      }
    }

    /** `first_value` over the open rows of an output, oldest first. */
    static method FindOldest(t: Table, i: nat) returns (oldest: nat)
      requires i < |t| && IsOpen(t[i])
      ensures oldest == OldestRow(t, i, |t|)
    {
      hide Older;
      oldest := i;
      for j := 0 to |t|
        invariant oldest == OldestRow(t, i, j)
      {
        if t[j].status != Committed && SameOutput(t[j], t[i]) && Older(t[j], t[oldest]) {
          oldest := j;
        }
      }
    }

    /** The windows are taken over the rows as they were before the statement. */
    method SetCanonicalTitles()
      modifies this`items
      ensures items == Retitled(old(items))
    {
      hide NewestRank, OldestRow, Retitled, Updating;
      var ranked := items;
      NothingUpdated(ranked, Retitled(ranked));
      for i := 0 to |ranked|
        invariant |items| == |ranked| && Updating(items, ranked, Retitled(ranked), i)
      {
        RetitledAt(ranked, i);
        UpdateRow(items, ranked, Retitled(ranked), i, Retitled(ranked)[i]);
        if ranked[i].status != Committed {
          var rank := RankFromNewest(ranked, i);
          if rank == 1 {
            var oldest := FindOldest(ranked, i);
            items := items[i := ranked[i].(title := ranked[oldest].title)];
          }
        }
      }
      AllUpdated(items, ranked, Retitled(ranked));
    }

    method SupersedeOlder(now: int)
      modifies this`items
      ensures items == SupersededRows(old(items), now)
    {
      hide NewestRank, SupersededRows, Updating;
      var ranked := items;
      NothingUpdated(ranked, SupersededRows(ranked, now));
      for i := 0 to |ranked|
        invariant |items| == |ranked| && Updating(items, ranked, SupersededRows(ranked, now), i)
      {
        SupersededAt(ranked, now, i);
        UpdateRow(items, ranked, SupersededRows(ranked, now), i, SupersededRows(ranked, now)[i]);
        if ranked[i].status != Committed {
          var rank := RankFromNewest(ranked, i);
          if rank > 1 {
            items := items[i := ranked[i].(status := Superseded, suggestedSelected := false,
                                           decision := SUPERSEDED_DECISION, decidedBy := None,
                                           decidedAt := Some(now), updatedAt := now)];
          }
        }
      }
      AllUpdated(items, ranked, SupersededRows(ranked, now));
    }

    /** `count(...) FILTER (WHERE ...)` over the items of one mission. */
    static method CountPending(t: Table, mission: string) returns (count: nat)
      ensures count == PendingCount(t, mission)
    {
      count := 0;
      for i := 0 to |t|
        invariant count == PendingCount(t[..i], mission)
      {
        assert t[..i + 1][..i] == t[..i];
        if t[i].missionId == mission && t[i].status == PendingReview {
          count := count + 1;
        }
      }
      assert t[..|t|] == t;
    }

    method Recount()
      modifies this`pendingCounts
      ensures pendingCounts == Recounted(items, old(pendingCounts))
    {
      var missions := pendingCounts.Keys;
      while missions != {}
        invariant missions <= old(pendingCounts.Keys) && pendingCounts.Keys == old(pendingCounts.Keys)
        invariant forall mission <- pendingCounts.Keys - missions ::
                    pendingCounts[mission] == PendingCount(items, mission)
        decreases missions
      {
        var mission :| mission in missions;
        var count := CountPending(items, mission);
        pendingCounts := pendingCounts[mission := count];
        missions := missions - {mission};
      }
    }

    /** All statements in one transaction: when a key does not fit, nothing changes. */
    method Upgrade(now: int) returns (ok: bool)
      modifies this
      ensures ok <==> KeysFit(old(items))
      ensures ok ==> items == Cutover(old(items), now) && pendingCounts == Recounted(items, old(pendingCounts))
      ensures !ok ==> items == old(items) && pendingCounts == old(pendingCounts)
    {
      ok := BackfillKeys();
      if ok {
        SetCanonicalTitles();
        SupersedeOlder(now);
        Recount();
      }
    }
  }
}

module ReviewCutoverTheorems {
  import opened Wrappers
  import opened ReviewCutover

  /** Two tables agree on everything the windows look at. */
  predicate SameWindows(t: Table, u: Table) {
    |t| == |u|
    && forall i | 0 <= i < |t| ::
         t[i].id == u[i].id && t[i].missionId == u[i].missionId && t[i].outputKey == u[i].outputKey
         && t[i].createdAt == u[i].createdAt && (IsOpen(t[i]) <==> IsOpen(u[i]))
  }

  lemma WindowsDetermineRanks(t: Table, u: Table, i: nat)
    requires SameWindows(t, u) && i < |t|
    ensures NewerRows(t, i) == NewerRows(u, i)
  {
  }

  lemma {:induction false} WindowsDetermineOldest(t: Table, u: Table, i: nat, n: nat)
    requires SameWindows(t, u) && i < |t| && n <= |t| && IsOpen(t[i])
    ensures OldestRow(t, i, n) == OldestRow(u, i, n)
  {
    if n > 0 {
      WindowsDetermineOldest(t, u, i, n - 1);
    }
  }

  /** Row `i` is the newest open row of its output. */
  predicate IsNewestOpen(t: Table, i: nat)
    requires i < |t|
  {
    IsOpen(t[i]) && forall j | 0 <= j < |t| && IsOpen(t[j]) && SameOutput(t[j], t[i]) :: !Older(t[i], t[j])
  }

  lemma RankOneIsNewest(t: Table, i: nat)
    requires i < |t| && IsOpen(t[i])
    ensures NewestRank(t, i) == 1 <==> IsNewestOpen(t, i)
  {
    var newer := NewerRows(t, i);
    assert forall j: nat | j < |t| && IsOpen(t[j]) && SameOutput(t[j], t[i]) :: Older(t[i], t[j]) <==> j in newer;
    assert newer == {} <==> forall j | j in newer :: !Older(t[i], t[j]);
  }

  lemma NewestIsOne(t: Table, i: nat, j: nat)
    requires UniqueIds(t) && i < |t| && j < |t|
    requires IsNewestOpen(t, i) && IsNewestOpen(t, j) && SameOutput(t[i], t[j])
    ensures i == j
  {
    if i != j {
      OlderIsTotal(t[i], t[j]);
    }
  }

  lemma OldestIsOne(t: Table, i: nat, j: nat)
    requires UniqueIds(t) && i < |t| && j < |t| && IsOpen(t[i]) && IsOpen(t[j]) && SameOutput(t[i], t[j])
    ensures OldestRow(t, i, |t|) == OldestRow(t, j, |t|)
  {
    var p, q := OldestRow(t, i, |t|), OldestRow(t, j, |t|);
    if p != q {
      OlderIsTotal(t[p], t[q]);
    }
  }

  /** All open rows of one output have the same canonical title. */
  lemma OneTitlePerOutput(t: Table, i: nat, j: nat)
    requires UniqueIds(t) && i < |t| && j < |t| && IsOpen(t[i]) && IsOpen(t[j]) && SameOutput(t[i], t[j])
    ensures CanonicalTitle(t, i) == CanonicalTitle(t, j)
  {
    OldestIsOne(t, i, j);
  }

  lemma CutoverKeepsWindows(t: Table, now: int)
    ensures SameWindows(Keyed(t), Retitled(Keyed(t))) && SameWindows(Keyed(t), Cutover(t, now))
  {
  }

  /** What is left of one row: committed rows only gain their key, no row is lost, and identity never changes. */
  lemma CutoverKeepsRows(t: Table, now: int)
    ensures var u := Cutover(t, now);
            |u| == |t|
            && forall i | 0 <= i < |t| ::
                 && u[i].id == t[i].id && u[i].missionId == t[i].missionId && u[i].createdAt == t[i].createdAt
                 && u[i].outputKey == Some(OutputKey(t[i]))
                 && (t[i].status == Committed ==> u[i] == t[i].(outputKey := Some(OutputKey(t[i]))))
                 && (u[i].status == t[i].status || (IsOpen(t[i]) && u[i].status == Superseded))
  {
  }

  /**
   After the cutover, a row that is neither committed nor superseded is the newest uncommitted one of its
   mission and key, and carries the title of the oldest; every older uncommitted row is superseded.
   */
  lemma LiveRowIsNewest(t: Table, now: int, i: nat)
    requires i < |t|
    ensures var k, u := Keyed(t), Cutover(t, now);
            && (IsNewestOpen(k, i) ==> u[i] == k[i].(title := CanonicalTitle(k, i)))
            && (IsOpen(k[i]) && !IsNewestOpen(k, i) ==> u[i] == Supersede(k[i], now))
  {
    var k := Keyed(t);
    CutoverKeepsWindows(t, now);
    if IsOpen(k[i]) {
      RankOneIsNewest(k, i);
      WindowsDetermineRanks(k, Retitled(k), i);
    }
  }

  lemma CutoverKeepsLength(t: Table, now: int)
    ensures |Keyed(t)| == |Cutover(t, now)| == |t|
  {
  }

  // ---------- In the columns of one row ----------

  function KindOrTarget(r: Item): string {
    match r.previewArtifactKind {
      case Some(kind) => if kind != "" then kind else r.targetKind + ":" + r.id
      case None => r.targetKind + ":" + r.id
    }
  }

  /** The first of the preview's key, the preview's kind and the target that is not empty. */
  function KeyFor(r: Item): string {
    match r.previewOutputKey {
      case Some(key) => if key != "" then key else KindOrTarget(r)
      case None => KindOrTarget(r)
    }
  }

  /** Two uncommitted rows for one output of one mission. */
  predicate Rivals(a: Item, b: Item) {
    a.status != Committed && b.status != Committed && a.missionId == b.missionId && KeyFor(a) == KeyFor(b)
  }

  /** `b` is a candidate for the output of `a` that was created later, or at the same time with a greater id. */
  predicate IsReplacedBy(a: Item, b: Item) {
    Rivals(a, b) && (a.createdAt < b.createdAt || (a.createdAt == b.createdAt && Text.Before(a.id, b.id)))
  }

  lemma KeyedRow(t: Table, i: nat)
    requires i < |t|
    ensures Keyed(t)[i] == t[i].(outputKey := Some(KeyFor(t[i])))
  {
  }

  lemma RivalsShareAnOutput(t: Table, i: nat, j: nat)
    requires i < |t| && j < |t|
    ensures var k := Keyed(t);
            && (Rivals(t[i], t[j]) <==> IsOpen(k[i]) && IsOpen(k[j]) && SameOutput(k[i], k[j]))
            && (IsReplacedBy(t[i], t[j]) <==> Rivals(t[i], t[j]) && Older(k[i], k[j]))
  {
    KeyedRow(t, i);
    KeyedRow(t, j);
  }

  lemma SameOutputIsSymmetric(a: Item, b: Item)
    ensures SameOutput(a, b) <==> SameOutput(b, a)
  {
  }

  lemma CommittedStays(t: Table, now: int, i: nat)
    requires i < |t|
    ensures t[i].status == Committed ==> Cutover(t, now)[i] == Keyed(t)[i]
    ensures IsOpen(Keyed(t)[i]) <==> t[i].status != Committed
  {
  }

  /** The title a row is given is that of a rival that none of its rivals is older than. */
  lemma OldestRivalNamesIt(t: Table, i: nat)
    requires i < |t| && t[i].status != Committed
    ensures |Keyed(t)| == |t| && IsOpen(Keyed(t)[i])
    ensures exists k | 0 <= k < |t| ::
              && CanonicalTitle(Keyed(t), i) == t[k].title
              && Rivals(t[i], t[k]) && forall j | 0 <= j < |t| && Rivals(t[i], t[j]) :: !IsReplacedBy(t[j], t[k])
  {
    hide Older, KeyFor;
    var u := Keyed(t);
    var k := OldestRow(u, i, |u|);
    RivalsShareAnOutput(t, i, k);
    forall j | 0 <= j < |t| && Rivals(t[i], t[j])
      ensures !IsReplacedBy(t[j], t[k])
    {
      RivalsShareAnOutput(t, i, j);
      RivalsShareAnOutput(t, j, k);
    }
  }

  /**
   What the cutover makes of one row, told from the columns of the table it started with: a committed row gets its key; a
   row with a later rival is superseded; any other row stays as it is, under the title of its oldest rival.
   */
  lemma RowsFollowTheirColumns(t: Table, now: int, i: nat)
    requires i < |t|
    ensures var r, u := t[i], Cutover(t, now)[i];
            var keyed := r.(outputKey := Some(KeyFor(r)));
            if r.status == Committed then u == keyed
            else if exists j | 0 <= j < |t| :: IsReplacedBy(r, t[j]) then
              u == keyed.(status := Superseded, suggestedSelected := false, decidedBy := None, decidedAt := Some(now),
                          decision := "A newer candidate now represents this output.", updatedAt := now)
            else
              exists k | 0 <= k < |t| ::
                && u == keyed.(title := t[k].title)
                && Rivals(r, t[k]) && forall j | 0 <= j < |t| && Rivals(r, t[j]) :: !IsReplacedBy(t[j], t[k])
  {
    hide Cutover, Keyed, Older, SameOutput, KeyFor, CanonicalTitle;
    var k := Keyed(t);
    LiveRowIsNewest(t, now, i);
    KeyedRow(t, i);
    CutoverKeepsLength(t, now);
    forall j | 0 <= j < |t|
      ensures Rivals(t[i], t[j]) <==> IsOpen(k[i]) && IsOpen(k[j]) && SameOutput(k[j], k[i])
      ensures IsReplacedBy(t[i], t[j]) <==> Rivals(t[i], t[j]) && Older(k[i], k[j])
    {
      RivalsShareAnOutput(t, i, j);
      SameOutputIsSymmetric(k[i], k[j]);
    }
    if t[i].status != Committed && !exists j | 0 <= j < |t| :: IsReplacedBy(t[i], t[j]) {
      CommittedStays(t, now, i);
      OldestRivalNamesIt(t, i);
    } else {
      CommittedStays(t, now, i);
    }
  }

  /** Rows with different keys in their previews never supersede each other. */
  lemma DifferentKeysBothStay(t: Table, now: int, i: nat)
    requires i < |t| && t[i].previewOutputKey.Some? && t[i].previewOutputKey.value != ""
    requires forall j | 0 <= j < |t| && j != i && t[j].status != Committed && t[j].missionId == t[i].missionId ::
               t[j].previewOutputKey.Some? && t[j].previewOutputKey.value != ""
               && t[j].previewOutputKey != t[i].previewOutputKey
    ensures Cutover(t, now)[i] == t[i].(outputKey := t[i].previewOutputKey)
  {
    hide Cutover;
    RowsFollowTheirColumns(t, now, i);
    Text.BeforeIsIrreflexive(t[i].id);
  }

  /** The cutover fails exactly if some key is longer than the column. */
  lemma KeysFitTheColumn(t: Table)
    ensures KeysFit(t) <==> forall r | r in t :: |KeyFor(r)| <= 160
  {
  }

  predicate IsLive(r: Item) {
    r.status != Committed && r.status != Superseded
  }

  /** At most one live row is left for each mission and output key. */
  lemma OneLiveRowPerOutput(t: Table, now: int, i: nat, j: nat)
    requires UniqueIds(t) && i < |t| && j < |t|
    requires var u := Cutover(t, now); IsLive(u[i]) && IsLive(u[j]) && SameOutput(u[i], u[j])
    ensures i == j
  {
    LiveRowIsNewest(t, now, i);
    LiveRowIsNewest(t, now, j);
    assert UniqueIds(Keyed(t));
    NewestIsOne(Keyed(t), i, j);
  }

  function PendingRows(t: Table, mission: string): set<nat> {
    set i: nat | i < |t| && t[i].missionId == mission && t[i].status == PendingReview
  }

  lemma {:induction false} CountIsCardinality(t: Table, mission: string)
    ensures PendingCount(t, mission) == |PendingRows(t, mission)|
    decreases |t|
  {
    if t != [] {
      var n := |t| - 1;
      CountIsCardinality(t[..n], mission);
      assert PendingRows(t, mission) ==
             PendingRows(t[..n], mission) + (if CountsAsPending(t[n], mission) then {n} else {});
    }
  }

  /** Each mission's count is the number of its pending rows. */
  lemma CountsArePendingRows(t: Table, counts: map<string, int>, mission: string)
    requires mission in counts
    ensures Recounted(t, counts).Keys == counts.Keys
    ensures Recounted(t, counts)[mission] == |PendingRows(t, mission)|
  {
    CountIsCardinality(t, mission);
  }

  lemma KeyingKeepsIds(t: Table)
    requires UniqueIds(t)
    ensures UniqueIds(Keyed(t))
  {
  }

  lemma TitleIsSettled(t: Table, now: int, i: nat)
    requires UniqueIds(t) && i < |t|
    ensures Retitled(Cutover(t, now))[i] == Cutover(t, now)[i]
  {
    hide Cutover, Keyed, OldestRow, NewerRows, IsNewestOpen, Older;
    var k, u := Keyed(t), Cutover(t, now);
    CutoverKeepsWindows(t, now);
    assert |u| == |t| && |k| == |t| by { CutoverKeepsLength(t, now); }
    if IsOpen(u[i]) && NewestRank(u, i) == 1 {
      WindowsDetermineRanks(k, u, i);
      RankOneIsNewest(k, i);
      LiveRowIsNewest(t, now, i);
      WindowsDetermineOldest(k, u, i, |t|);
      var oldest := OldestRow(k, i, |t|);
      // The oldest row either is row i itself or is not the newest, so its own title was never replaced.
      LiveRowIsNewest(t, now, oldest);
      assert UniqueIds(k) by { KeyingKeepsIds(t); }
      if oldest != i && IsNewestOpen(k, oldest) {
        NewestIsOne(k, oldest, i);
      }
    }
  }

  lemma StatusIsSettled(t: Table, now: int, later: int, i: nat)
    requires i < |t|
    ensures var u := Cutover(t, now);
            SupersededRows(u, later)[i].status == u[i].status && SupersededRows(u, later)[i].title == u[i].title
            && SupersededRows(u, later)[i].missionId == u[i].missionId
  {
    var k, u := Keyed(t), Cutover(t, now);
    CutoverKeepsWindows(t, now);
    if IsOpen(u[i]) {
      WindowsDetermineRanks(k, u, i);
      RankOneIsNewest(k, i);
      LiveRowIsNewest(t, now, i);
    }
  }

  lemma {:induction false} SameStatusSameCount(u: Table, v: Table, mission: string)
    requires |u| == |v| && forall i | 0 <= i < |u| :: v[i].status == u[i].status && v[i].missionId == u[i].missionId
    ensures PendingCount(v, mission) == PendingCount(u, mission)
    decreases |u|
  {
    if u != [] {
      SameStatusSameCount(u[..|u| - 1], v[..|u| - 1], mission);
    }
  }

  /** Running the title, supersede and recount statements again changes no status, no title and no count. */
  lemma RerunChangesNothing(t: Table, now: int, later: int, counts: map<string, int>)
    requires UniqueIds(t)
    ensures var u := Cutover(t, now);
            var v := SupersededRows(Retitled(u), later);
            && |v| == |u| && (forall i | 0 <= i < |u| :: v[i].status == u[i].status && v[i].title == u[i].title)
            && Retitled(u) == u
            && Recounted(v, Recounted(u, counts)) == Recounted(u, counts)
  {
    var k, u := Keyed(t), Cutover(t, now);
    CutoverKeepsWindows(t, now);
    forall i | 0 <= i < |u|
      ensures Retitled(u)[i] == u[i]
    {
      TitleIsSettled(t, now, i);
    }
    assert Retitled(u) == u;
    var v := SupersededRows(u, later);
    forall i | 0 <= i < |u|
      ensures v[i].status == u[i].status && v[i].title == u[i].title && v[i].missionId == u[i].missionId
    {
      StatusIsSettled(t, now, later, i);
    }
    forall mission
      ensures PendingCount(v, mission) == PendingCount(u, mission)
    {
      SameStatusSameCount(u, v, mission);
    }
  }
}
