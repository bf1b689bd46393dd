/**
 Renumbering of duplicate artifact versions: within one workspace, type and title, the first artifact
 of a version keeps it and the others are numbered on after the highest version, in their old order.
 */
module ArtifactVersions {
  import opened Wrappers
  import Text

  datatype Artifact = Artifact(id: string, workspaceId: string, kind: string, title: Option<string>, version: int, createdAt: int)

  type Table = seq<Artifact>

  predicate UniqueIds(t: Table) {
    forall i, j | 0 <= i < j < |t| :: t[i].id != t[j].id
  }

  predicate SameTitle(a: Artifact, b: Artifact) {
    a.workspaceId == b.workspaceId && a.kind == b.kind && a.title == b.title
  }

  /** `ORDER BY created_at, id`. */
  predicate Earlier(a: Artifact, b: Artifact) {
    a.createdAt < b.createdAt || (a.createdAt == b.createdAt && Text.Before(a.id, b.id))
  }

  /** `ORDER BY version, created_at, id`. */
  predicate Precedes(a: Artifact, b: Artifact) {
    a.version < b.version || (a.version == b.version && Earlier(a, b))
  }

  /** The titled rows of the same title and version that come before row `i`. */
  function EarlierTwins(t: Table, i: nat): set<nat>
    requires i < |t|
  {
    set j: nat | j < |t| && t[j].title.Some? && SameTitle(t[j], t[i]) && t[j].version == t[i].version && Earlier(t[j], t[i])
  }

  function DuplicateRank(t: Table, i: nat): nat
    requires i < |t|
  {
    1 + |EarlierTwins(t, i)|
  }

  predicate ToFix(t: Table, i: nat)
    requires i < |t|
  {
    t[i].title.Some? && DuplicateRank(t, i) > 1
  }

  /** `max(version)` over the rows of the same title, scanning the first `n`. */
  function MaxVersion(t: Table, i: nat, n: nat): (m: int)
    requires i < |t| && n <= |t|
    ensures m >= t[i].version
    ensures forall j | 0 <= j < n && SameTitle(t[j], t[i]) :: t[j].version <= m
    ensures exists j | 0 <= j < |t| :: SameTitle(t[j], t[i]) && t[j].version == m
  {
    if n == 0 then t[i].version
    else
      var m := MaxVersion(t, i, n - 1);
      if SameTitle(t[n - 1], t[i]) && t[n - 1].version > m then t[n - 1].version else m
  }

  /** The rows to be renumbered that come before row `i` among those of its title. */
  function FixedBefore(t: Table, i: nat): set<nat>
    requires i < |t|
  {
    set j: nat | j < |t| && ToFix(t, j) && SameTitle(t[j], t[i]) && Precedes(t[j], t[i])
  }

  function NewVersion(t: Table, i: nat): int
    requires i < |t|
  {
    MaxVersion(t, i, |t|) + 1 + |FixedBefore(t, i)|
  }

  function Renumbered(t: Table): Table {
    seq(|t|, i requires 0 <= i < |t| => if ToFix(t, i) then t[i].(version := NewVersion(t, i)) else t[i])
  }

  /** The constraint the migration then adds; a missing title is never equal to another. */
  predicate VersionsUnique(t: Table) {
    forall i, j | 0 <= i < j < |t| && t[i].title.Some? && t[i].workspaceId == t[j].workspaceId
                  && t[i].kind == t[j].kind && t[i].title == t[j].title :: t[i].version != t[j].version
  }

  // ---------- Orders ----------

  lemma EarlierIsTotal(a: Artifact, b: Artifact)
    requires a.id != b.id
    ensures Earlier(a, b) || Earlier(b, a)
  {
    Text.BeforeIsTotal(a.id, b.id);
  }

  lemma EarlierIsAsymmetric(a: Artifact, b: Artifact)
    requires Earlier(a, b)
    ensures !Earlier(b, a)
  {
    if a.createdAt == b.createdAt {
      Text.BeforeIsAsymmetric(a.id, b.id);
    }
  }

  lemma EarlierIsTransitive(a: Artifact, b: Artifact, c: Artifact)
    requires Earlier(a, b) && Earlier(b, c)
    ensures Earlier(a, c)
  {
    if a.createdAt == b.createdAt == c.createdAt {
      Text.BeforeIsTransitive(a.id, b.id, c.id);
    }
  }

  lemma PrecedesIsTransitive(a: Artifact, b: Artifact, c: Artifact)
    requires Precedes(a, b) && Precedes(b, c)
    ensures Precedes(a, c)
  {
    if a.version == b.version == c.version {
      EarlierIsTransitive(a, b, c);
    }
  }

  lemma PrecedesIsIrreflexive(a: Artifact)
    ensures !Precedes(a, a)
  {
    if Precedes(a, a) {
      EarlierIsAsymmetric(a, a);
    }
  }

  // ---------- No clash is left ----------

  lemma {:induction false} SubsetIsNotLarger(a: set<nat>, b: set<nat>)
    requires a <= b
    ensures |a| <= |b|
    decreases |a|
  {
    if a != {} {
      var x :| x in a;
      SubsetIsNotLarger(a - {x}, b - {x});
    }
  }

  lemma ProperSubsetIsSmaller(a: set<nat>, b: set<nat>)
    requires a < b
    ensures |a| < |b|
  {
    var x :| x in b && x !in a;
    SubsetIsNotLarger(a, b - {x});
  }

  lemma SameMaximum(t: Table, i: nat, j: nat)
    requires i < |t| && j < |t| && SameTitle(t[i], t[j])
    ensures MaxVersion(t, i, |t|) == MaxVersion(t, j, |t|)
  {
  }

  /** Among the rows to be renumbered, a later one gets a higher version. */
  lemma RenumberingKeepsOrder(t: Table, i: nat, j: nat)
    requires i < |t| && j < |t| && ToFix(t, i) && SameTitle(t[i], t[j]) && Precedes(t[i], t[j])
    ensures NewVersion(t, i) < NewVersion(t, j)
  {
    var a, b := FixedBefore(t, i), FixedBefore(t, j);
    forall k | k in a
      ensures k in b
    {
      PrecedesIsTransitive(t[k], t[i], t[j]);
    }
    PrecedesIsIrreflexive(t[i]);
    assert i in b && i !in a;
    ProperSubsetIsSmaller(a, b);
    SameMaximum(t, i, j);
  }

  /** Two titled rows with the same version cannot both keep it. */
  lemma OneTwinIsFixed(t: Table, i: nat, j: nat)
    requires UniqueIds(t) && i < |t| && j < |t| && i != j
    requires t[i].title.Some? && SameTitle(t[i], t[j]) && t[i].version == t[j].version
    ensures ToFix(t, i) || ToFix(t, j)
  {
    EarlierIsTotal(t[i], t[j]);
    if Earlier(t[i], t[j]) {
      assert i in EarlierTwins(t, j);
    } else {
      assert j in EarlierTwins(t, i);
    }
  }

  lemma PairDiffers(t: Table, i: nat, j: nat)
    requires UniqueIds(t) && i < |t| && j < |t| && i != j
    requires t[i].title.Some? && SameTitle(t[i], t[j])
    ensures Renumbered(t)[i].version != Renumbered(t)[j].version
  {
    SameMaximum(t, i, j);
    if ToFix(t, i) && ToFix(t, j) {
      EarlierIsTotal(t[i], t[j]);
      if Precedes(t[i], t[j]) {
        RenumberingKeepsOrder(t, i, j);
      } else {
        RenumberingKeepsOrder(t, j, i);
      }
    } else if !ToFix(t, i) && !ToFix(t, j) && t[i].version == t[j].version {
      OneTwinIsFixed(t, i, j);
    }
  }

  /** After the renumbering, titled artifacts are unique on workspace, type, title and version. */
  lemma RenumberingRemovesClashes(t: Table)
    requires UniqueIds(t)
    ensures VersionsUnique(Renumbered(t))
  {
    var u := Renumbered(t);
    forall i, j | 0 <= i < j < |u| && u[i].title.Some? && SameTitle(u[i], u[j])
      ensures u[i].version != u[j].version
    {
      PairDiffers(t, i, j);
    }
  }

  /** Only versions change, they never decrease, and untitled rows are untouched. */
  lemma RenumberingChangesLittle(t: Table, i: nat)
    requires i < |t|
    ensures var u := Renumbered(t);
            && |u| == |t| && u[i] == t[i].(version := u[i].version) && u[i].version >= t[i].version
            && (t[i].title.None? ==> u[i] == t[i])
            && (u[i].version != t[i].version ==> u[i].version > MaxVersion(t, i, |t|))
  {
  }

  lemma {:induction false} EarliestTwin(t: Table, i: nat) returns (j: nat)
    requires i < |t| && t[i].title.Some?
    ensures j < |t| && SameTitle(t[j], t[i]) && t[j].version == t[i].version && EarlierTwins(t, j) == {}
    decreases |EarlierTwins(t, i)|
  {
    j := i;
    if EarlierTwins(t, i) != {} {
      var k :| k in EarlierTwins(t, i);
      forall x | x in EarlierTwins(t, k)
        ensures x in EarlierTwins(t, i)
      {
        EarlierIsTransitive(t[x], t[k], t[i]);
      }
      PrecedesIsIrreflexive(t[k]);
      assert k !in EarlierTwins(t, k);
      ProperSubsetIsSmaller(EarlierTwins(t, k), EarlierTwins(t, i));
      j := EarliestTwin(t, k);
    }
  }

  /** One artifact of each old version keeps it: the earliest. */
  lemma EveryVersionKeepsOne(t: Table, i: nat) returns (j: nat)
    requires UniqueIds(t) && i < |t|
    ensures j < |t| && SameTitle(t[j], t[i]) && t[j].version == t[i].version && Renumbered(t)[j] == t[j]
    ensures forall k | 0 <= k < |t| && t[k].title.Some? && SameTitle(t[k], t[i]) && t[k].version == t[i].version && k != j ::
              Earlier(t[j], t[k])
  {
    j := i;
    if t[i].title.Some? {
      j := EarliestTwin(t, i);
      assert EarlierTwins(t, j) == {};
      forall k | 0 <= k < |t| && t[k].title.Some? && SameTitle(t[k], t[i]) && t[k].version == t[i].version && k != j
        ensures Earlier(t[j], t[k])
      {
        EarlierIsTotal(t[j], t[k]);
        assert k !in EarlierTwins(t, j);
      }
    }
  }

  // ---------- In the columns of the table ----------

  /** Titled rows that the constraint tells apart by their versions only. */
  predicate SharesTitle(a: Artifact, b: Artifact) {
    a.title.Some? && a.workspaceId == b.workspaceId && a.kind == b.kind && a.title == b.title
  }

  predicate CreatedBefore(a: Artifact, b: Artifact) {
    a.createdAt < b.createdAt || (a.createdAt == b.createdAt && Text.Before(a.id, b.id))
  }

  /** An older row already has the version of row `i`. */
  predicate IsDuplicate(t: Table, i: nat)
    requires i < |t|
  {
    exists j | 0 <= j < |t| :: SharesTitle(t[j], t[i]) && t[j].version == t[i].version && CreatedBefore(t[j], t[i])
  }

  function Duplicates(t: Table, i: nat): set<nat>
    requires i < |t|
  {
    set j: nat | j < |t| && IsDuplicate(t, j) && SharesTitle(t[j], t[i])
  }

  predicate IsHighest(t: Table, i: nat, top: int)
    requires i < |t|
  {
    && (exists j | 0 <= j < |t| :: SharesTitle(t[j], t[i]) && t[j].version == top)
    && forall j | 0 <= j < |t| && SharesTitle(t[j], t[i]) :: t[j].version <= top
  }

  lemma DuplicatesAreFixed(t: Table, i: nat)
    requires i < |t|
    ensures ToFix(t, i) <==> IsDuplicate(t, i)
  {
    var twins := EarlierTwins(t, i);
    forall j | 0 <= j < |t|
      ensures j in twins <==> SharesTitle(t[j], t[i]) && t[j].version == t[i].version && CreatedBefore(t[j], t[i])
    {
    }
    if IsDuplicate(t, i) {
      var j :| 0 <= j < |t| && SharesTitle(t[j], t[i]) && t[j].version == t[i].version && CreatedBefore(t[j], t[i]);
      assert j in twins;
    }
  }

  lemma MaxIsHighest(t: Table, i: nat)
    requires i < |t| && t[i].title.Some?
    ensures IsHighest(t, i, MaxVersion(t, i, |t|))
  {
  }

  /** A row without an older twin stays; the others keep all their columns but the version. */
  lemma OnlyDuplicatesMove(t: Table, i: nat)
    requires i < |t|
    ensures |Renumbered(t)| == |t|
    ensures Renumbered(t)[i] == if IsDuplicate(t, i) then t[i].(version := Renumbered(t)[i].version) else t[i]
  {
    DuplicatesAreFixed(t, i);
  }

  /** The duplicates of a title that come before row `i`, by version, then by creation, then by id. */
  function Ahead(t: Table, i: nat): set<nat>
    requires i < |t|
  {
    set j | j in Duplicates(t, i) && (t[j].version < t[i].version || (t[j].version == t[i].version && CreatedBefore(t[j], t[i])))
  }

  lemma AheadAreFixedBefore(t: Table, i: nat)
    requires i < |t| && t[i].title.Some?
    ensures FixedBefore(t, i) == Ahead(t, i)
  {
    forall j: nat | j < |t|
      ensures j in FixedBefore(t, i) <==> j in Ahead(t, i)
    {
      DuplicatesAreFixed(t, j);
    }
  }

  lemma NewNumberFits(t: Table, i: nat, top: int)
    requires i < |t| && IsDuplicate(t, i) && IsHighest(t, i, top)
    ensures Renumbered(t)[i].version == NewVersion(t, i) == top + 1 + |Ahead(t, i)|
    ensures top < Renumbered(t)[i].version <= top + |Duplicates(t, i)|
  {
    DuplicatesAreFixed(t, i);
    AheadAreFixedBefore(t, i);
    MaxIsHighest(t, i);
    PrecedesIsIrreflexive(t[i]);
    assert i in Duplicates(t, i) && i !in Ahead(t, i);
    ProperSubsetIsSmaller(Ahead(t, i), Duplicates(t, i));
  }

  lemma OneTitle(t: Table, i: nat, j: nat, top: int)
    requires i < |t| && j < |t| && SharesTitle(t[i], t[j])
    ensures Duplicates(t, i) == Duplicates(t, j)
    ensures IsHighest(t, i, top) ==> IsHighest(t, j, top)
  {
  }

  /**
   The n duplicates of a title get n different numbers among the n that follow its highest version, and so each of
   them once, in the order of their old versions, their creation and their ids.
   */
  lemma NewNumbersAreConsecutive(t: Table, i: nat, j: nat, top: int)
    requires UniqueIds(t) && i < |t| && j < |t| && IsHighest(t, i, top)
    requires IsDuplicate(t, i) && IsDuplicate(t, j) && SharesTitle(t[i], t[j])
    ensures Duplicates(t, i) == Duplicates(t, j)
    ensures top < Renumbered(t)[i].version <= top + |Duplicates(t, i)|
    ensures i != j ==> Renumbered(t)[i].version != Renumbered(t)[j].version
    ensures t[i].version < t[j].version || (t[i].version == t[j].version && CreatedBefore(t[i], t[j])) ==>
              Renumbered(t)[i].version < Renumbered(t)[j].version
  {
    hide Renumbered, NewVersion, Duplicates, IsDuplicate, IsHighest, Ahead;
    OneTitle(t, i, j, top);
    NewNumberFits(t, i, top);
    NewNumberFits(t, j, top);
    DuplicatesAreFixed(t, i);
    DuplicatesAreFixed(t, j);
    if i != j {
      PairDiffers(t, i, j);
    }
    if Precedes(t[i], t[j]) {
      RenumberingKeepsOrder(t, i, j);
    }
  }

  class Artifacts {
    var rows: Table

    constructor (rows: Table)
      ensures this.rows == rows
    {
      this.rows := rows;
    }

    /** The renumbering, after which the constraint can be added. */
    method Upgrade()
      requires UniqueIds(rows)
      modifies this
      ensures rows == Renumbered(old(rows)) && VersionsUnique(rows)
    {
      RenumberingRemovesClashes(rows);
      rows := Renumbered(rows);
    }
  }
}
