/** The artifact-craft comparison report: count, quality, slot and substat
    (effect) axes, every figure weighted by the stack's quantity. */
module CompareArtifactCrafts {
  import opened Optional
  import opened Seqs
  import opened Tallies
  import opened Reports
  import opened Models
  import opened CompareArtifacts

  /** The slot bucket of an artifact craft: the archetype when the craft has
      one, otherwise its element. */
  function CraftSlot(c: ArtifactCraft): (k: Key)
    ensures c.archetype.Some? ==> k == ArchetypeSlot(c.archetype.value)
    ensures c.archetype.None? && c.element.Some? ==> k == ElementSlot(c.element.value)
  {
    PreciseSlot(c.element, c.archetype)
  }

  /** Every category value of the stack is declared and its slot is seeded. */
  predicate ArtifactCraftInCatalog(c: ArtifactCraft, cat: ArtifactCatalog) {
    && c.quality in cat.qualities
    && CraftSlot(c) in SlotKeys(cat)
    && c.effect in cat.effects
  }

  function ArtifactCraftOwned(s: nat, f: nat): ArtifactCraft -> bool {
    (c: ArtifactCraft) => c.owner == s || c.owner == f
  }

  function ArtifactCraftSide(f: nat): ArtifactCraft -> Side {
    (c: ArtifactCraft) => SideOf(c.owner, f)
  }

  function StackSize(c: ArtifactCraft): int { c.quantity }

  /** The axes of the report; a stack falls into one bucket of each. */
  datatype ArtifactCraftAxis = StackQuality | StackSlot | StackEffect

  function StackBucketing(a: ArtifactCraftAxis): ArtifactCraft -> Key {
    match a
    case StackQuality => (c: ArtifactCraft) => Code(c.quality)
    case StackSlot => CraftSlot
    case StackEffect => (c: ArtifactCraft) => Code(c.effect)
  }

  function StackDeclared(a: ArtifactCraftAxis, cat: ArtifactCatalog): seq<Key> {
    match a
    case StackQuality => CodeKeys(cat.qualities)
    case StackSlot => SlotKeys(cat)
    case StackEffect => CodeKeys(cat.effects)
  }

  lemma StackBucketDeclared(c: ArtifactCraft, cat: ArtifactCatalog, a: ArtifactCraftAxis)
    requires ArtifactCraftInCatalog(c, cat)
    ensures StackBucketing(a)(c) in StackDeclared(a, cat)
  {
    CodeKeysMember(cat.qualities, c.quality);
    CodeKeysMember(cat.effects, c.effect);
  }

  lemma StackDeclaredNoDup(cat: ArtifactCatalog, a: ArtifactCraftAxis)
    requires ArtifactCatalogDistinct(cat)
    ensures NoDup(StackDeclared(a, cat))
  {
    CodeKeysNoDup(cat.qualities);
    CodeKeysNoDup(cat.effects);
    SlotKeysNoDup(cat);
  }

  datatype ArtifactCraftReport = ArtifactCraftReport(
    count: Tally,
    quality: map<Key, Tally>,
    slot: map<Key, Tally>,
    substats: map<Key, Tally>)

  function StackColumn(rep: ArtifactCraftReport, a: ArtifactCraftAxis): map<Key, Tally> {
    match a
    case StackQuality => rep.quality
    case StackSlot => rep.slot
    case StackEffect => rep.substats
  }

  function StackTable(cs: seq<ArtifactCraft>, f: nat, cat: ArtifactCatalog, a: ArtifactCraftAxis): (t: map<Key, Tally>)
    requires forall c :: c in cs ==> ArtifactCraftInCatalog(c, cat)
    ensures forall k :: k in t <==> k in StackDeclared(a, cat)
  {
    forall c | c in cs ensures StackBucketing(a)(c) in StackDeclared(a, cat) {
      StackBucketDeclared(c, cat, a);
    }
    Axis(StackDeclared(a, cat), cs, StackBucketing(a), ArtifactCraftSide(f), StackSize)
  }

  function TallyArtifactCrafts(cs: seq<ArtifactCraft>, f: nat, cat: ArtifactCatalog): ArtifactCraftReport
    requires forall c :: c in cs ==> ArtifactCraftInCatalog(c, cat)
  {
    ArtifactCraftReport(
      count := Total(cs, ArtifactCraftSide(f), StackSize),
      quality := StackTable(cs, f, cat, StackQuality),
      slot := StackTable(cs, f, cat, StackSlot),
      substats := StackTable(cs, f, cat, StackEffect))
  }

  lemma StackColumnTable(cs: seq<ArtifactCraft>, f: nat, cat: ArtifactCatalog, a: ArtifactCraftAxis)
    requires forall c :: c in cs ==> ArtifactCraftInCatalog(c, cat)
    ensures StackColumn(TallyArtifactCrafts(cs, f, cat), a) == StackTable(cs, f, cat, a)
  {
  }

  const StackNames: seq<string> := ["count", "quality", "slot", "substats"]

  function StackSectionIndex(a: ArtifactCraftAxis): nat {
    match a
    case StackQuality => 1
    case StackSlot => 2
    case StackEffect => 3
  }

  function StackTree(rep: ArtifactCraftReport, cat: ArtifactCatalog): Node {
    Group([
      Entry(Name(StackNames[0]), Leaf(rep.count, None)),
      Entry(Name(StackNames[1]), AxisNode(StackDeclared(StackQuality, cat), rep.quality)),
      Entry(Name(StackNames[2]), AxisNode(StackDeclared(StackSlot, cat), rep.slot)),
      Entry(Name(StackNames[3]), AxisNode(StackDeclared(StackEffect, cat), rep.substats))])
  }

  lemma StackTreeShape(rep: ArtifactCraftReport, cat: ArtifactCatalog)
    ensures KeyedBy(StackTree(rep, cat).entries, StackNames) && NoDup(StackNames)
    ensures forall a :: StackTree(rep, cat).entries[StackSectionIndex(a)].node
                        == AxisNode(StackDeclared(a, cat), StackColumn(rep, a))
  {
  }

  function OwnedStacks(all: seq<ArtifactCraft>, s: nat, f: nat, cat: ArtifactCatalog): (cs: seq<ArtifactCraft>)
    requires forall c :: c in all && (c.owner == s || c.owner == f) ==> ArtifactCraftInCatalog(c, cat)
    ensures forall c :: c in cs ==> ArtifactCraftInCatalog(c, cat)
    ensures cs == Filter(all, ArtifactCraftOwned(s, f))
  {
    Filter(all, ArtifactCraftOwned(s, f))
  }

  /** The artifact-craft comparison. */
  function CompareArtifactCrafts(all: seq<ArtifactCraft>, s: nat, f: nat, cat: ArtifactCatalog): (report: Node)
    requires forall c :: c in all && (c.owner == s || c.owner == f) ==> ArtifactCraftInCatalog(c, cat)
    ensures Decided(report)
  {
    FindWinners(StackTree(TallyArtifactCrafts(OwnedStacks(all, s, f, cat), f, cat), cat))
  }

  /** The stacks credited to one column. */
  function StacksOf(all: seq<ArtifactCraft>, s: nat, f: nat, side: Side): (cs: seq<ArtifactCraft>)
    ensures forall c :: c in cs <==>
      c in all && (if side == Follower then c.owner == f else c.owner == s && c.owner != f)
  {
    Filter(Filter(all, ArtifactCraftOwned(s, f)), InBucket(ArtifactCraftSide(f), side))
  }

  /** Every bucket holds, per column, the total quantity of that column's
      stacks with that category value. */
  lemma StackBuckets(all: seq<ArtifactCraft>, s: nat, f: nat, cat: ArtifactCatalog, a: ArtifactCraftAxis, k: Key, side: Side)
    requires forall c :: c in all && (c.owner == s || c.owner == f) ==> ArtifactCraftInCatalog(c, cat)
    requires k in StackDeclared(a, cat)
    ensures var col := StackColumn(TallyArtifactCrafts(OwnedStacks(all, s, f, cat), f, cat), a);
      k in col && col[k].Of(side) == Sum(Filter(StacksOf(all, s, f, side), InBucket(StackBucketing(a), k)), StackSize)
  {
    var cs := OwnedStacks(all, s, f, cat);
    forall c | c in cs ensures StackBucketing(a)(c) in StackDeclared(a, cat) {
      StackBucketDeclared(c, cat, a);
    }
    StackColumnTable(cs, f, cat, a);
    AxisBucket(StackDeclared(a, cat), cs, StackBucketing(a), ArtifactCraftSide(f), StackSize, k, side);
  }

  /** `count` is the total quantity of the column's stacks. */
  lemma StackCount(all: seq<ArtifactCraft>, s: nat, f: nat, cat: ArtifactCatalog, side: Side)
    requires forall c :: c in all && (c.owner == s || c.owner == f) ==> ArtifactCraftInCatalog(c, cat)
    ensures TallyArtifactCrafts(OwnedStacks(all, s, f, cat), f, cat).count.Of(side) == Sum(StacksOf(all, s, f, side), StackSize)
  {
    TotalSide(OwnedStacks(all, s, f, cat), ArtifactCraftSide(f), StackSize, side);
  }

  /** Bucket sums: each axis of a column adds up to its `count`. */
  lemma StackBucketSums(all: seq<ArtifactCraft>, s: nat, f: nat, cat: ArtifactCatalog, a: ArtifactCraftAxis, side: Side)
    requires ArtifactCatalogDistinct(cat)
    requires forall c :: c in all && (c.owner == s || c.owner == f) ==> ArtifactCraftInCatalog(c, cat)
    ensures var rep := TallyArtifactCrafts(OwnedStacks(all, s, f, cat), f, cat);
      && (forall k :: k in StackDeclared(a, cat) ==> k in StackColumn(rep, a))
      && SumOver(StackDeclared(a, cat), StackColumn(rep, a), side) == rep.count.Of(side)
  {
    var cs := OwnedStacks(all, s, f, cat);
    StackColumnTable(cs, f, cat, a);
    StackDeclaredNoDup(cat, a);
    forall c | c in cs ensures StackBucketing(a)(c) in StackDeclared(a, cat) {
      StackBucketDeclared(c, cat, a);
    }
    AxisSum(StackDeclared(a, cat), cs, StackBucketing(a), ArtifactCraftSide(f), StackSize, side);
  }

  /** A bucket leaf of the scored report. */
  lemma StackLeaf(all: seq<ArtifactCraft>, s: nat, f: nat, cat: ArtifactCatalog, a: ArtifactCraftAxis, k: Key)
    requires forall c :: c in all && (c.owner == s || c.owner == f) ==> ArtifactCraftInCatalog(c, cat)
    requires k in StackDeclared(a, cat)
    ensures var t := Tally(Sum(Filter(StacksOf(all, s, f, Summoner), InBucket(StackBucketing(a), k)), StackSize),
                           Sum(Filter(StacksOf(all, s, f, Follower), InBucket(StackBucketing(a), k)), StackSize));
      Lookup(CompareArtifactCrafts(all, s, f, cat), [Name(StackNames[StackSectionIndex(a)]), k]) == Some(Leaf(t, Some(Decide(t))))
  {
    var rep := TallyArtifactCrafts(OwnedStacks(all, s, f, cat), f, cat);
    StackBuckets(all, s, f, cat, a, k, Summoner);
    StackBuckets(all, s, f, cat, a, k, Follower);
    var t := StackColumn(rep, a)[k];
    assert t == Tally(t.Of(Summoner), t.Of(Follower));
    StackTreeShape(rep, cat);
    NamedBucket(StackTree(rep, cat), StackNames, StackSectionIndex(a), StackDeclared(a, cat), StackColumn(rep, a), k);
  }

  /** The `count` leaf of the scored report. */
  lemma StackCountLeaf(all: seq<ArtifactCraft>, s: nat, f: nat, cat: ArtifactCatalog)
    requires forall c :: c in all && (c.owner == s || c.owner == f) ==> ArtifactCraftInCatalog(c, cat)
    ensures var n := Tally(Sum(StacksOf(all, s, f, Summoner), StackSize), Sum(StacksOf(all, s, f, Follower), StackSize));
      Lookup(CompareArtifactCrafts(all, s, f, cat), [Name("count")]) == Some(Leaf(n, Some(Decide(n))))
  {
    var rep := TallyArtifactCrafts(OwnedStacks(all, s, f, cat), f, cat);
    StackCount(all, s, f, cat, Summoner);
    StackCount(all, s, f, cat, Follower);
    assert rep.count == Tally(rep.count.Of(Summoner), rep.count.Of(Follower));
    StackTreeShape(rep, cat);
    NamedLeaf(StackTree(rep, cat), StackNames, 0, rep.count);
  }
}
