/** The rune-craft comparison report for one craft kind: every figure is
    weighted by the stack's quantity, and `worth` by value times quantity. */
module CompareRuneCrafts {
  import opened Optional
  import opened Seqs
  import opened Tallies
  import opened Reports
  import opened Models

  /** The declared categories of the craft tables. */
  datatype CraftCatalog = CraftCatalog(stats: seq<int>, sets: seq<int>, qualities: seq<int>)

  predicate CraftCatalogDistinct(cat: CraftCatalog) {
    NoDup(cat.stats) && NoDup(cat.sets) && NoDup(cat.qualities)
  }

  /** Every category value of the stack is declared; a set-less stack (an
      ancient or universal craft) goes to the `None` set bucket. */
  predicate CraftInCatalog(c: RuneCraft, cat: CraftCatalog) {
    && (c.runeSet.Some? ==> c.runeSet.value in cat.sets)
    && c.quality in cat.qualities
    && c.stat in cat.stats
  }

  /** The query `owner__in=[summoner, follower], type=craft_type`. */
  function CraftOwned(s: nat, f: nat, kind: CraftKind): RuneCraft -> bool {
    (c: RuneCraft) => c.kind == kind && (c.owner == s || c.owner == f)
  }

  function CraftSide(f: nat): RuneCraft -> Side {
    (c: RuneCraft) => SideOf(c.owner, f)
  }

  function Quantity(c: RuneCraft): int { c.quantity }

  /** What a stack is worth: its unit value times its quantity. */
  function CraftWorth(c: RuneCraft): int { c.value * c.quantity }

  /** The axes of the craft report; each stack falls into one bucket of each. */
  datatype CraftAxis = CraftSets | CraftQuality | CraftStat

  function CraftBucketing(a: CraftAxis): RuneCraft -> Key {
    match a
    case CraftSets => (c: RuneCraft) => OptKey(c.runeSet)
    case CraftQuality => (c: RuneCraft) => Code(c.quality)
    case CraftStat => (c: RuneCraft) => Code(c.stat)
  }

  /** The pre-seeded buckets: the sets axis has an extra `None` bucket. */
  function CraftDeclared(a: CraftAxis, cat: CraftCatalog): seq<Key> {
    match a
    case CraftSets => CodeKeys(cat.sets) + [Absent]
    case CraftQuality => CodeKeys(cat.qualities)
    case CraftStat => CodeKeys(cat.stats)
  }

  lemma CraftBucketDeclared(c: RuneCraft, cat: CraftCatalog, a: CraftAxis)
    requires CraftInCatalog(c, cat)
    ensures CraftBucketing(a)(c) in CraftDeclared(a, cat)
  {
    if c.runeSet.Some? { CodeKeysMember(cat.sets, c.runeSet.value); }
    CodeKeysMember(cat.qualities, c.quality);
    CodeKeysMember(cat.stats, c.stat);
  }

  lemma CraftDeclaredNoDup(cat: CraftCatalog, a: CraftAxis)
    requires CraftCatalogDistinct(cat)
    ensures NoDup(CraftDeclared(a, cat))
  {
    CodeKeysNoDup(cat.sets);
    CodeKeysNoDup(cat.qualities);
    CodeKeysNoDup(cat.stats);
  }

  datatype CraftReport = CraftReport(
    count: Tally,
    sets: map<Key, Tally>,
    quality: map<Key, Tally>,
    stat: map<Key, Tally>,
    worth: Tally)

  function CraftColumn(rep: CraftReport, a: CraftAxis): map<Key, Tally> {
    match a
    case CraftSets => rep.sets
    case CraftQuality => rep.quality
    case CraftStat => rep.stat
  }

  function CraftTable(cs: seq<RuneCraft>, f: nat, cat: CraftCatalog, a: CraftAxis): (t: map<Key, Tally>)
    requires forall c :: c in cs ==> CraftInCatalog(c, cat)
    ensures forall k :: k in t <==> k in CraftDeclared(a, cat)
  {
    forall c | c in cs ensures CraftBucketing(a)(c) in CraftDeclared(a, cat) {
      CraftBucketDeclared(c, cat, a);
    }
    Axis(CraftDeclared(a, cat), cs, CraftBucketing(a), CraftSide(f), Quantity)
  }

  /** The population pass over the two owners' stacks of the requested kind. */
  function TallyCrafts(cs: seq<RuneCraft>, f: nat, cat: CraftCatalog): CraftReport
    requires forall c :: c in cs ==> CraftInCatalog(c, cat)
  {
    CraftReport(
      count := Total(cs, CraftSide(f), Quantity),
      sets := CraftTable(cs, f, cat, CraftSets),
      quality := CraftTable(cs, f, cat, CraftQuality),
      stat := CraftTable(cs, f, cat, CraftStat),
      worth := Total(cs, CraftSide(f), CraftWorth))
  }

  lemma CraftColumnTable(cs: seq<RuneCraft>, f: nat, cat: CraftCatalog, a: CraftAxis)
    requires forall c :: c in cs ==> CraftInCatalog(c, cat)
    ensures CraftColumn(TallyCrafts(cs, f, cat), a) == CraftTable(cs, f, cat, a)
  {
  }

  const CraftNames: seq<string> := ["count", "sets", "quality", "stat", "worth"]

  function CraftSectionIndex(a: CraftAxis): nat {
    match a
    case CraftSets => 1
    case CraftQuality => 2
    case CraftStat => 3
  }

  /** The nested report before the winner pass, keys in the source's order. */
  function CraftTree(rep: CraftReport, cat: CraftCatalog): Node {
    Group([
      Entry(Name(CraftNames[0]), Leaf(rep.count, None)),
      Entry(Name(CraftNames[1]), AxisNode(CraftDeclared(CraftSets, cat), rep.sets)),
      Entry(Name(CraftNames[2]), AxisNode(CraftDeclared(CraftQuality, cat), rep.quality)),
      Entry(Name(CraftNames[3]), AxisNode(CraftDeclared(CraftStat, cat), rep.stat)),
      Entry(Name(CraftNames[4]), Leaf(rep.worth, None))])
  }

  lemma CraftTreeShape(rep: CraftReport, cat: CraftCatalog)
    ensures KeyedBy(CraftTree(rep, cat).entries, CraftNames) && NoDup(CraftNames)
    ensures forall a :: CraftTree(rep, cat).entries[CraftSectionIndex(a)].node
                        == AxisNode(CraftDeclared(a, cat), CraftColumn(rep, a))
  {
  }

  /** The two owners' stacks of the requested kind, in query order. */
  function OwnedCrafts(all: seq<RuneCraft>, s: nat, f: nat, kind: CraftKind, cat: CraftCatalog): (cs: seq<RuneCraft>)
    requires forall c :: c in all && c.kind == kind && (c.owner == s || c.owner == f) ==> CraftInCatalog(c, cat)
    ensures forall c :: c in cs ==> CraftInCatalog(c, cat)
    ensures cs == Filter(all, CraftOwned(s, f, kind))
  {
    Filter(all, CraftOwned(s, f, kind))
  }

  /** The rune-craft comparison for one craft kind. */
  function CompareCrafts(all: seq<RuneCraft>, s: nat, f: nat, kind: CraftKind, cat: CraftCatalog): (report: Node)
    requires forall c :: c in all && c.kind == kind && (c.owner == s || c.owner == f) ==> CraftInCatalog(c, cat)
    ensures Decided(report)
  {
    FindWinners(CraftTree(TallyCrafts(OwnedCrafts(all, s, f, kind, cat), f, cat), cat))
  }

  /** The stacks credited to one column: only the requested kind, the
      follower's to the follower, the summoner's (and no one else's) to the
      summoner. */
  function CraftsOf(all: seq<RuneCraft>, s: nat, f: nat, kind: CraftKind, side: Side): (cs: seq<RuneCraft>)
    ensures forall c :: c in cs <==>
      c in all && c.kind == kind && (if side == Follower then c.owner == f else c.owner == s && c.owner != f)
  {
    Filter(Filter(all, CraftOwned(s, f, kind)), InBucket(CraftSide(f), side))
  }

  /** Every bucket holds, per column, the total quantity of that column's
      stacks with that category value. */
  lemma CraftBuckets(all: seq<RuneCraft>, s: nat, f: nat, kind: CraftKind, cat: CraftCatalog,
                     a: CraftAxis, k: Key, side: Side)
    requires forall c :: c in all && c.kind == kind && (c.owner == s || c.owner == f) ==> CraftInCatalog(c, cat)
    requires k in CraftDeclared(a, cat)
    ensures var col := CraftColumn(TallyCrafts(OwnedCrafts(all, s, f, kind, cat), f, cat), a);
      k in col && col[k].Of(side) == Sum(Filter(CraftsOf(all, s, f, kind, side), InBucket(CraftBucketing(a), k)), Quantity)
  {
    var cs := OwnedCrafts(all, s, f, kind, cat);
    forall c | c in cs ensures CraftBucketing(a)(c) in CraftDeclared(a, cat) {
      CraftBucketDeclared(c, cat, a);
    }
    CraftColumnTable(cs, f, cat, a);
    AxisBucket(CraftDeclared(a, cat), cs, CraftBucketing(a), CraftSide(f), Quantity, k, side);
  }

  /** `count` adds quantities and `worth` adds value times quantity. */
  lemma CraftTotals(all: seq<RuneCraft>, s: nat, f: nat, kind: CraftKind, cat: CraftCatalog, side: Side)
    requires forall c :: c in all && c.kind == kind && (c.owner == s || c.owner == f) ==> CraftInCatalog(c, cat)
    ensures var rep := TallyCrafts(OwnedCrafts(all, s, f, kind, cat), f, cat);
      && rep.count.Of(side) == Sum(CraftsOf(all, s, f, kind, side), Quantity)
      && rep.worth.Of(side) == Sum(CraftsOf(all, s, f, kind, side), CraftWorth)
  {
    var cs := OwnedCrafts(all, s, f, kind, cat);
    TotalSide(cs, CraftSide(f), Quantity, side);
    TotalSide(cs, CraftSide(f), CraftWorth, side);
  }

  /** Bucket sums: every axis of a column adds up to that column's `count`. */
  lemma CraftBucketSums(all: seq<RuneCraft>, s: nat, f: nat, kind: CraftKind, cat: CraftCatalog, a: CraftAxis, side: Side)
    requires CraftCatalogDistinct(cat)
    requires forall c :: c in all && c.kind == kind && (c.owner == s || c.owner == f) ==> CraftInCatalog(c, cat)
    ensures var rep := TallyCrafts(OwnedCrafts(all, s, f, kind, cat), f, cat);
      && (forall k :: k in CraftDeclared(a, cat) ==> k in CraftColumn(rep, a))
      && SumOver(CraftDeclared(a, cat), CraftColumn(rep, a), side) == rep.count.Of(side)
  {
    var cs := OwnedCrafts(all, s, f, kind, cat);
    CraftColumnTable(cs, f, cat, a);
    CraftDeclaredNoDup(cat, a);
    forall c | c in cs ensures CraftBucketing(a)(c) in CraftDeclared(a, cat) {
      CraftBucketDeclared(c, cat, a);
    }
    AxisSum(CraftDeclared(a, cat), cs, CraftBucketing(a), CraftSide(f), Quantity, side);
  }

  /** A bucket leaf of the scored report: both columns' quantities in the
      bucket and their majority winner. */
  lemma CraftLeaf(all: seq<RuneCraft>, s: nat, f: nat, kind: CraftKind, cat: CraftCatalog, a: CraftAxis, k: Key)
    requires forall c :: c in all && c.kind == kind && (c.owner == s || c.owner == f) ==> CraftInCatalog(c, cat)
    requires k in CraftDeclared(a, cat)
    ensures var t := Tally(Sum(Filter(CraftsOf(all, s, f, kind, Summoner), InBucket(CraftBucketing(a), k)), Quantity),
                           Sum(Filter(CraftsOf(all, s, f, kind, Follower), InBucket(CraftBucketing(a), k)), Quantity));
      Lookup(CompareCrafts(all, s, f, kind, cat), [Name(CraftNames[CraftSectionIndex(a)]), k]) == Some(Leaf(t, Some(Decide(t))))
  {
    var rep := TallyCrafts(OwnedCrafts(all, s, f, kind, cat), f, cat);
    CraftBuckets(all, s, f, kind, cat, a, k, Summoner);
    CraftBuckets(all, s, f, kind, cat, a, k, Follower);
    var t := CraftColumn(rep, a)[k];
    assert t == Tally(t.Of(Summoner), t.Of(Follower));
    CraftTreeShape(rep, cat);
    NamedBucket(CraftTree(rep, cat), CraftNames, CraftSectionIndex(a), CraftDeclared(a, cat), CraftColumn(rep, a), k);
  }

  /** The `count` and `worth` leaves of the scored report. */
  lemma CraftTotalsLeaves(all: seq<RuneCraft>, s: nat, f: nat, kind: CraftKind, cat: CraftCatalog)
    requires forall c :: c in all && c.kind == kind && (c.owner == s || c.owner == f) ==> CraftInCatalog(c, cat)
    ensures var n := Tally(Sum(CraftsOf(all, s, f, kind, Summoner), Quantity), Sum(CraftsOf(all, s, f, kind, Follower), Quantity));
      Lookup(CompareCrafts(all, s, f, kind, cat), [Name("count")]) == Some(Leaf(n, Some(Decide(n))))
    ensures var w := Tally(Sum(CraftsOf(all, s, f, kind, Summoner), CraftWorth), Sum(CraftsOf(all, s, f, kind, Follower), CraftWorth));
      Lookup(CompareCrafts(all, s, f, kind, cat), [Name("worth")]) == Some(Leaf(w, Some(Decide(w))))
  {
    var rep := TallyCrafts(OwnedCrafts(all, s, f, kind, cat), f, cat);
    CraftTotals(all, s, f, kind, cat, Summoner);
    CraftTotals(all, s, f, kind, cat, Follower);
    assert rep.count == Tally(rep.count.Of(Summoner), rep.count.Of(Follower));
    assert rep.worth == Tally(rep.worth.Of(Summoner), rep.worth.Of(Follower));
    CraftTreeShape(rep, cat);
    NamedLeaf(CraftTree(rep, cat), CraftNames, 0, rep.count);
    NamedLeaf(CraftTree(rep, cat), CraftNames, 4, rep.worth);
  }

  /** Two stacks of 3 and 7 grindstones count as 10, and a gem stack of the
      other owner is not counted in a grindstone comparison. */
  lemma StacksExample()
    ensures var all := [RuneCraft(1, Grindstone, Some(2), 4, 3, 3, 100),
                        RuneCraft(1, Grindstone, None, 4, 3, 7, 100),
                        RuneCraft(2, EnchantGem, Some(2), 4, 3, 50, 100)];
      CraftsOf(all, 1, 2, Grindstone, Summoner) == all[..2]
      && CraftsOf(all, 1, 2, Grindstone, Follower) == []
      && Sum(CraftsOf(all, 1, 2, Grindstone, Summoner), Quantity) == 10
      && Sum(CraftsOf(all, 1, 2, Grindstone, Summoner), CraftWorth) == 1000
  {
    var all := [RuneCraft(1, Grindstone, Some(2), 4, 3, 3, 100),
                RuneCraft(1, Grindstone, None, 4, 3, 7, 100),
                RuneCraft(2, EnchantGem, Some(2), 4, 3, 50, 100)];
    var owned := Filter(all, CraftOwned(1, 2, Grindstone));
    assert owned == all[..2] by {
      assert Filter(all[2..], CraftOwned(1, 2, Grindstone)) == [];
      assert all[1..][1..] == all[2..];
    }
    assert all[..2][1..] == all[1..2];
    assert Filter(all[..2], InBucket(CraftSide(2), Summoner)) == all[..2] by {
      FilterKeepsAll(all[..2], InBucket(CraftSide(2), Summoner));
    }
    assert Filter(all[..2], InBucket(CraftSide(2), Follower)) == [] by {
      FilterKeepsNone(all[..2], InBucket(CraftSide(2), Follower));
    }
  }
}
