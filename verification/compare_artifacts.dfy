/** The artifact comparison report: a count, four pre-seeded one-bucket axes
    (quality, original quality, precise slot, main stat) and a substat axis
    counting effect occurrences, every leaf scored by the winner pass. */
module CompareArtifacts {
  import opened Optional
  import opened Seqs
  import opened Tallies
  import opened Reports
  import opened Models

  /** The declared categories of the artifact tables. */
  datatype ArtifactCatalog = ArtifactCatalog(
    qualities: seq<int>,
    archetypes: seq<int>,
    elements: seq<int>,
    mainStats: seq<int>,
    effects: seq<int>)

  predicate ArtifactCatalogDistinct(cat: ArtifactCatalog) {
    && NoDup(cat.qualities) && NoDup(cat.archetypes) && NoDup(cat.elements)
    && NoDup(cat.mainStats) && NoDup(cat.effects)
  }

  function ArchetypeKeys(codes: seq<int>): (ks: seq<Key>)
    ensures |ks| == |codes|
    ensures forall i :: 0 <= i < |codes| ==> ks[i] == ArchetypeSlot(codes[i])
  {
    if codes == [] then [] else [ArchetypeSlot(codes[0])] + ArchetypeKeys(codes[1..])
  }

  function ElementKeys(codes: seq<int>): (ks: seq<Key>)
    ensures |ks| == |codes|
    ensures forall i :: 0 <= i < |codes| ==> ks[i] == ElementSlot(codes[i])
  {
    if codes == [] then [] else [ElementSlot(codes[0])] + ElementKeys(codes[1..])
  }

  /** The slot axis is seeded with every archetype, then every element. */
  function SlotKeys(cat: ArtifactCatalog): seq<Key> {
    ArchetypeKeys(cat.archetypes) + ElementKeys(cat.elements)
  }

  lemma SlotKeysMember(cat: ArtifactCatalog, k: Key)
    ensures k in SlotKeys(cat) <==>
      (k.ArchetypeSlot? && k.archetype in cat.archetypes) || (k.ElementSlot? && k.element in cat.elements)
  {
    var ak := ArchetypeKeys(cat.archetypes);
    var ek := ElementKeys(cat.elements);
    if k.ArchetypeSlot? && k.archetype in cat.archetypes {
      var i :| 0 <= i < |cat.archetypes| && cat.archetypes[i] == k.archetype;
      assert ak[i] == k;
    }
    if k.ElementSlot? && k.element in cat.elements {
      var i :| 0 <= i < |cat.elements| && cat.elements[i] == k.element;
      assert ek[i] == k;
    }
  }

  lemma SlotKeysNoDup(cat: ArtifactCatalog)
    requires NoDup(cat.archetypes) && NoDup(cat.elements)
    ensures NoDup(SlotKeys(cat))
  {
    var ak := ArchetypeKeys(cat.archetypes);
    var ek := ElementKeys(cat.elements);
    assert forall i :: 0 <= i < |ak| + |ek| ==> SlotKeys(cat)[i] == if i < |ak| then ak[i] else ek[i - |ak|];
  }

  /** The precise slot of an artifact or artifact craft: its archetype when it
      has one, otherwise its element (a record with neither has no bucket). */
  function PreciseSlot(element: Option<int>, archetype: Option<int>): (k: Key)
    ensures k.ArchetypeSlot? <==> archetype.Some?
    ensures k.ArchetypeSlot? ==> k.archetype == archetype.value
    ensures k.ElementSlot? <==> archetype.None? && element.Some?
    ensures k.ElementSlot? ==> k.element == element.value
    ensures k == Absent <==> archetype.None? && element.None?
  {
    match archetype
    case Some(a) => ArchetypeSlot(a)
    case None =>
      match element
      case Some(e) => ElementSlot(e)
      case None => Absent
  }

  /** Every category value of the artifact is declared and its slot is one
      of the seeded ones. */
  predicate ArtifactInCatalog(x: Artifact, cat: ArtifactCatalog) {
    && x.quality in cat.qualities
    && x.originalQuality in cat.qualities
    && PreciseSlot(x.element, x.archetype) in SlotKeys(cat)
    && x.mainStat in cat.mainStats
    && forall i :: 0 <= i < |x.effects| ==> x.effects[i] in cat.effects
  }

  function ArtifactOwned(s: nat, f: nat): Artifact -> bool {
    (x: Artifact) => x.owner == s || x.owner == f
  }

  function ArtifactSide(f: nat): Artifact -> Side {
    (x: Artifact) => SideOf(x.owner, f)
  }

  /** The substat buckets an artifact hits: one per effect it carries. */
  function EffectKeys(x: Artifact): seq<Key> { CodeKeys(x.effects) }

  function EffectCount(x: Artifact): int { |x.effects| }

  /** The one-bucket-per-artifact axes. */
  datatype ArtifactAxis = ArtQuality | ArtQualityOriginal | ArtSlot | ArtMainStat

  function ArtifactBucketing(a: ArtifactAxis): Artifact -> Key {
    match a
    case ArtQuality => (x: Artifact) => Code(x.quality)
    case ArtQualityOriginal => (x: Artifact) => Code(x.originalQuality)
    case ArtSlot => (x: Artifact) => PreciseSlot(x.element, x.archetype)
    case ArtMainStat => (x: Artifact) => Code(x.mainStat)
  }

  /** The pre-seeded buckets; no axis of the artifact report has a `None` bucket. */
  function ArtifactDeclared(a: ArtifactAxis, cat: ArtifactCatalog): seq<Key> {
    match a
    case ArtQuality => CodeKeys(cat.qualities)
    case ArtQualityOriginal => CodeKeys(cat.qualities)
    case ArtSlot => SlotKeys(cat)
    case ArtMainStat => CodeKeys(cat.mainStats)
  }

  lemma ArtifactBucketDeclared(x: Artifact, cat: ArtifactCatalog, a: ArtifactAxis)
    requires ArtifactInCatalog(x, cat)
    ensures ArtifactBucketing(a)(x) in ArtifactDeclared(a, cat)
  {
    CodeKeysMember(cat.qualities, x.quality);
    CodeKeysMember(cat.qualities, x.originalQuality);
    CodeKeysMember(cat.mainStats, x.mainStat);
  }

  lemma EffectsDeclared(x: Artifact, cat: ArtifactCatalog)
    requires ArtifactInCatalog(x, cat)
    ensures forall k :: k in EffectKeys(x) ==> k in CodeKeys(cat.effects)
  {
    forall k | k in EffectKeys(x) ensures k in CodeKeys(cat.effects) {
      var i :| 0 <= i < |x.effects| && EffectKeys(x)[i] == k;
      CodeKeysMember(cat.effects, x.effects[i]);
    }
  }

  lemma ArtifactDeclaredNoDup(cat: ArtifactCatalog, a: ArtifactAxis)
    requires ArtifactCatalogDistinct(cat)
    ensures NoDup(ArtifactDeclared(a, cat))
  {
    CodeKeysNoDup(cat.qualities);
    CodeKeysNoDup(cat.mainStats);
    SlotKeysNoDup(cat);
  }

  datatype ArtifactReport = ArtifactReport(
    count: Tally,
    quality: map<Key, Tally>,
    qualityOriginal: map<Key, Tally>,
    slot: map<Key, Tally>,
    mainStat: map<Key, Tally>,
    substats: map<Key, Tally>)

  function ArtifactColumn(rep: ArtifactReport, a: ArtifactAxis): map<Key, Tally> {
    match a
    case ArtQuality => rep.quality
    case ArtQualityOriginal => rep.qualityOriginal
    case ArtSlot => rep.slot
    case ArtMainStat => rep.mainStat
  }

  function ArtifactTable(xs: seq<Artifact>, f: nat, cat: ArtifactCatalog, a: ArtifactAxis): (t: map<Key, Tally>)
    requires forall x :: x in xs ==> ArtifactInCatalog(x, cat)
    ensures forall k :: k in t <==> k in ArtifactDeclared(a, cat)
  {
    forall x | x in xs ensures ArtifactBucketing(a)(x) in ArtifactDeclared(a, cat) {
      ArtifactBucketDeclared(x, cat, a);
    }
    Axis(ArtifactDeclared(a, cat), xs, ArtifactBucketing(a), ArtifactSide(f), Unit)
  }

  /** The substat axis: each artifact adds one per effect it carries. */
  function EffectTable(xs: seq<Artifact>, f: nat, cat: ArtifactCatalog): (t: map<Key, Tally>)
    requires forall x :: x in xs ==> ArtifactInCatalog(x, cat)
    ensures forall k :: k in t <==> k in CodeKeys(cat.effects)
  {
    forall x, k | x in xs && k in EffectKeys(x) ensures k in Seed(CodeKeys(cat.effects)).Keys {
      EffectsDeclared(x, cat);
    }
    Tabulate(Seed(CodeKeys(cat.effects)), xs, EffectKeys, ArtifactSide(f), Unit)
  }

  function TallyArtifacts(xs: seq<Artifact>, f: nat, cat: ArtifactCatalog): ArtifactReport
    requires forall x :: x in xs ==> ArtifactInCatalog(x, cat)
  {
    ArtifactReport(
      count := Total(xs, ArtifactSide(f), Unit),
      quality := ArtifactTable(xs, f, cat, ArtQuality),
      qualityOriginal := ArtifactTable(xs, f, cat, ArtQualityOriginal),
      slot := ArtifactTable(xs, f, cat, ArtSlot),
      mainStat := ArtifactTable(xs, f, cat, ArtMainStat),
      substats := EffectTable(xs, f, cat))
  }

  lemma ArtifactColumnTable(xs: seq<Artifact>, f: nat, cat: ArtifactCatalog, a: ArtifactAxis)
    requires forall x :: x in xs ==> ArtifactInCatalog(x, cat)
    ensures ArtifactColumn(TallyArtifacts(xs, f, cat), a) == ArtifactTable(xs, f, cat, a)
  {
  }

  const ArtifactNames: seq<string> := ["count", "quality", "quality_original", "slot", "main_stat", "substats"]

  function ArtifactSectionIndex(a: ArtifactAxis): nat {
    match a
    case ArtQuality => 1
    case ArtQualityOriginal => 2
    case ArtSlot => 3
    case ArtMainStat => 4
  }

  function ArtifactTree(rep: ArtifactReport, cat: ArtifactCatalog): Node {
    Group([
      Entry(Name(ArtifactNames[0]), Leaf(rep.count, None)),
      Entry(Name(ArtifactNames[1]), AxisNode(ArtifactDeclared(ArtQuality, cat), rep.quality)),
      Entry(Name(ArtifactNames[2]), AxisNode(ArtifactDeclared(ArtQualityOriginal, cat), rep.qualityOriginal)),
      Entry(Name(ArtifactNames[3]), AxisNode(ArtifactDeclared(ArtSlot, cat), rep.slot)),
      Entry(Name(ArtifactNames[4]), AxisNode(ArtifactDeclared(ArtMainStat, cat), rep.mainStat)),
      Entry(Name(ArtifactNames[5]), AxisNode(CodeKeys(cat.effects), rep.substats))])
  }

  lemma ArtifactTreeShape(rep: ArtifactReport, cat: ArtifactCatalog)
    ensures KeyedBy(ArtifactTree(rep, cat).entries, ArtifactNames) && NoDup(ArtifactNames)
    ensures forall a :: ArtifactTree(rep, cat).entries[ArtifactSectionIndex(a)].node
                        == AxisNode(ArtifactDeclared(a, cat), ArtifactColumn(rep, a))
    ensures ArtifactTree(rep, cat).entries[5].node == AxisNode(CodeKeys(cat.effects), rep.substats)
  {
  }

  function OwnedArtifacts(all: seq<Artifact>, s: nat, f: nat, cat: ArtifactCatalog): (xs: seq<Artifact>)
    requires forall x :: x in all && (x.owner == s || x.owner == f) ==> ArtifactInCatalog(x, cat)
    ensures forall x :: x in xs ==> ArtifactInCatalog(x, cat)
    ensures xs == Filter(all, ArtifactOwned(s, f))
  {
    Filter(all, ArtifactOwned(s, f))
  }

  /** The artifact comparison. */
  function CompareArtifacts(all: seq<Artifact>, s: nat, f: nat, cat: ArtifactCatalog): (report: Node)
    requires forall x :: x in all && (x.owner == s || x.owner == f) ==> ArtifactInCatalog(x, cat)
    ensures Decided(report)
  {
    FindWinners(ArtifactTree(TallyArtifacts(OwnedArtifacts(all, s, f, cat), f, cat), cat))
  }

  /** The artifacts credited to one column. */
  function ArtifactsOf(all: seq<Artifact>, s: nat, f: nat, side: Side): (xs: seq<Artifact>)
    ensures forall x :: x in xs <==>
      x in all && (if side == Follower then x.owner == f else x.owner == s && x.owner != f)
  {
    Filter(Filter(all, ArtifactOwned(s, f)), InBucket(ArtifactSide(f), side))
  }

  /** Every bucket of a one-bucket axis counts that column's artifacts with
      that category value. */
  lemma ArtifactBuckets(all: seq<Artifact>, s: nat, f: nat, cat: ArtifactCatalog, a: ArtifactAxis, k: Key, side: Side)
    requires forall x :: x in all && (x.owner == s || x.owner == f) ==> ArtifactInCatalog(x, cat)
    requires k in ArtifactDeclared(a, cat)
    ensures var col := ArtifactColumn(TallyArtifacts(OwnedArtifacts(all, s, f, cat), f, cat), a);
      k in col && col[k].Of(side) == |Filter(ArtifactsOf(all, s, f, side), InBucket(ArtifactBucketing(a), k))|
  {
    var xs := OwnedArtifacts(all, s, f, cat);
    forall x | x in xs ensures ArtifactBucketing(a)(x) in ArtifactDeclared(a, cat) {
      ArtifactBucketDeclared(x, cat, a);
    }
    ArtifactColumnTable(xs, f, cat, a);
    AxisBucket(ArtifactDeclared(a, cat), xs, ArtifactBucketing(a), ArtifactSide(f), Unit, k, side);
    SumUnit(Filter(ArtifactsOf(all, s, f, side), InBucket(ArtifactBucketing(a), k)));
  }

  /** `count` is the number of artifacts credited to the column. */
  lemma ArtifactCount(all: seq<Artifact>, s: nat, f: nat, cat: ArtifactCatalog, side: Side)
    requires forall x :: x in all && (x.owner == s || x.owner == f) ==> ArtifactInCatalog(x, cat)
    ensures TallyArtifacts(OwnedArtifacts(all, s, f, cat), f, cat).count.Of(side) == |ArtifactsOf(all, s, f, side)|
  {
    TotalCounts(OwnedArtifacts(all, s, f, cat), ArtifactSide(f), Unit, side);
  }

  /** Bucket sums: each one-bucket axis of a column adds up to its `count`. */
  lemma ArtifactBucketSums(all: seq<Artifact>, s: nat, f: nat, cat: ArtifactCatalog, a: ArtifactAxis, side: Side)
    requires ArtifactCatalogDistinct(cat)
    requires forall x :: x in all && (x.owner == s || x.owner == f) ==> ArtifactInCatalog(x, cat)
    ensures var rep := TallyArtifacts(OwnedArtifacts(all, s, f, cat), f, cat);
      && (forall k :: k in ArtifactDeclared(a, cat) ==> k in ArtifactColumn(rep, a))
      && SumOver(ArtifactDeclared(a, cat), ArtifactColumn(rep, a), side) == rep.count.Of(side)
  {
    var xs := OwnedArtifacts(all, s, f, cat);
    ArtifactColumnTable(xs, f, cat, a);
    ArtifactDeclaredNoDup(cat, a);
    forall x | x in xs ensures ArtifactBucketing(a)(x) in ArtifactDeclared(a, cat) {
      ArtifactBucketDeclared(x, cat, a);
    }
    AxisSum(ArtifactDeclared(a, cat), xs, ArtifactBucketing(a), ArtifactSide(f), Unit, side);
  }

  /** The substat axis of a column adds up to the number of effects its
      artifacts carry. */
  lemma ArtifactEffectSum(all: seq<Artifact>, s: nat, f: nat, cat: ArtifactCatalog, side: Side)
    requires ArtifactCatalogDistinct(cat)
    requires forall x :: x in all && (x.owner == s || x.owner == f) ==> ArtifactInCatalog(x, cat)
    ensures var rep := TallyArtifacts(OwnedArtifacts(all, s, f, cat), f, cat);
      && (forall k :: k in CodeKeys(cat.effects) ==> k in rep.substats)
      && SumOver(CodeKeys(cat.effects), rep.substats, side) == Sum(ArtifactsOf(all, s, f, side), EffectCount)
  {
    var xs := OwnedArtifacts(all, s, f, cat);
    CodeKeysNoDup(cat.effects);
    forall x, k | x in xs && k in EffectKeys(x) ensures k in CodeKeys(cat.effects) {
      EffectsDeclared(x, cat);
    }
    forall x: Artifact ensures EffectCount(x) == Unit(x) * |EffectKeys(x)| {
      assert Unit(x) == 1;
    }
    TableSum(CodeKeys(cat.effects), xs, EffectKeys, ArtifactSide(f), Unit, EffectCount, side);
  }

  /** A bucket leaf of the scored report. */
  lemma ArtifactLeaf(all: seq<Artifact>, s: nat, f: nat, cat: ArtifactCatalog, a: ArtifactAxis, k: Key)
    requires forall x :: x in all && (x.owner == s || x.owner == f) ==> ArtifactInCatalog(x, cat)
    requires k in ArtifactDeclared(a, cat)
    ensures var t := Tally(|Filter(ArtifactsOf(all, s, f, Summoner), InBucket(ArtifactBucketing(a), k))|,
                           |Filter(ArtifactsOf(all, s, f, Follower), InBucket(ArtifactBucketing(a), k))|);
      Lookup(CompareArtifacts(all, s, f, cat), [Name(ArtifactNames[ArtifactSectionIndex(a)]), k]) == Some(Leaf(t, Some(Decide(t))))
  {
    var rep := TallyArtifacts(OwnedArtifacts(all, s, f, cat), f, cat);
    ArtifactBuckets(all, s, f, cat, a, k, Summoner);
    ArtifactBuckets(all, s, f, cat, a, k, Follower);
    var t := ArtifactColumn(rep, a)[k];
    assert t == Tally(t.Of(Summoner), t.Of(Follower));
    ArtifactTreeShape(rep, cat);
    NamedBucket(ArtifactTree(rep, cat), ArtifactNames, ArtifactSectionIndex(a), ArtifactDeclared(a, cat), ArtifactColumn(rep, a), k);
  }

  /** The `count` leaf of the scored report. */
  lemma ArtifactCountLeaf(all: seq<Artifact>, s: nat, f: nat, cat: ArtifactCatalog)
    requires forall x :: x in all && (x.owner == s || x.owner == f) ==> ArtifactInCatalog(x, cat)
    ensures var n := Tally(|ArtifactsOf(all, s, f, Summoner)|, |ArtifactsOf(all, s, f, Follower)|);
      Lookup(CompareArtifacts(all, s, f, cat), [Name("count")]) == Some(Leaf(n, Some(Decide(n))))
  {
    var rep := TallyArtifacts(OwnedArtifacts(all, s, f, cat), f, cat);
    ArtifactCount(all, s, f, cat, Summoner);
    ArtifactCount(all, s, f, cat, Follower);
    assert rep.count == Tally(rep.count.Of(Summoner), rep.count.Of(Follower));
    ArtifactTreeShape(rep, cat);
    NamedLeaf(ArtifactTree(rep, cat), ArtifactNames, 0, rep.count);
  }
  /** How many times effect `k` occurs among an artifact's substat effects. */
  function EffectHits(k: Key): Artifact -> int {
    (x: Artifact) => Occurrences(k, EffectKeys(x))
  }

  /** Every substat bucket counts, per column, the occurrences of that effect
      among the effects of the column's artifacts. */
  lemma ArtifactEffectBucket(all: seq<Artifact>, s: nat, f: nat, cat: ArtifactCatalog, k: Key, side: Side)
    requires forall x :: x in all && (x.owner == s || x.owner == f) ==> ArtifactInCatalog(x, cat)
    requires k in CodeKeys(cat.effects)
    ensures var rep := TallyArtifacts(OwnedArtifacts(all, s, f, cat), f, cat);
      k in rep.substats && rep.substats[k].Of(side) == Sum(ArtifactsOf(all, s, f, side), EffectHits(k))
  {
    var xs := OwnedArtifacts(all, s, f, cat);
    forall x, j | x in xs && j in EffectKeys(x) ensures j in Seed(CodeKeys(cat.effects)).Keys {
      EffectsDeclared(x, cat);
    }
    forall x: Artifact ensures EffectHits(k)(x) == Unit(x) * Occurrences(k, EffectKeys(x)) {
      assert Unit(x) == 1;
    }
    TableBucket(CodeKeys(cat.effects), xs, EffectKeys, ArtifactSide(f), Unit, EffectHits(k), k, side);
  }

  /** A substat leaf, end to end: under every declared effect the scored
      report holds, per column, how many times that effect occurs among the
      column's artifacts, and the majority winner of those figures. */
  lemma ArtifactEffectLeaf(all: seq<Artifact>, s: nat, f: nat, cat: ArtifactCatalog, k: Key)
    requires forall x :: x in all && (x.owner == s || x.owner == f) ==> ArtifactInCatalog(x, cat)
    requires k in CodeKeys(cat.effects)
    ensures var t := Tally(Sum(ArtifactsOf(all, s, f, Summoner), EffectHits(k)),
                           Sum(ArtifactsOf(all, s, f, Follower), EffectHits(k)));
      Lookup(CompareArtifacts(all, s, f, cat), [Name("substats"), k]) == Some(Leaf(t, Some(Decide(t))))
  {
    var rep := TallyArtifacts(OwnedArtifacts(all, s, f, cat), f, cat);
    ArtifactEffectBucket(all, s, f, cat, k, Summoner);
    ArtifactEffectBucket(all, s, f, cat, k, Follower);
    var t := rep.substats[k];
    assert t == Tally(t.Of(Summoner), t.Of(Follower));
    ArtifactTreeShape(rep, cat);
    NamedBucket(ArtifactTree(rep, cat), ArtifactNames, 5, CodeKeys(cat.effects), rep.substats, k);
  }

  /** A declared effect that none of the two owners' artifacts carries is
      reported as 0 against 0, a tie. */
  lemma ArtifactUnseenEffect(all: seq<Artifact>, s: nat, f: nat, cat: ArtifactCatalog, c: int)
    requires forall x :: x in all && (x.owner == s || x.owner == f) ==> ArtifactInCatalog(x, cat)
    requires c in cat.effects
    requires forall x :: x in all && (x.owner == s || x.owner == f) ==> c !in x.effects
    ensures Lookup(CompareArtifacts(all, s, f, cat), [Name("substats"), Code(c)]) == Some(Leaf(Zero, Some(Tie)))
  {
    var xs := OwnedArtifacts(all, s, f, cat);
    var rep := TallyArtifacts(xs, f, cat);
    CodeKeysMember(cat.effects, c);
    forall x, j | x in xs && j in EffectKeys(x) ensures j in Seed(CodeKeys(cat.effects)).Keys {
      EffectsDeclared(x, cat);
    }
    forall x | x in xs ensures Code(c) !in EffectKeys(x) {
      CodeKeysMember(x.effects, c);
    }
    TableUnhit(CodeKeys(cat.effects), xs, EffectKeys, ArtifactSide(f), Unit, Code(c));
    ArtifactTreeShape(rep, cat);
    NamedBucket(ArtifactTree(rep, cat), ArtifactNames, 5, CodeKeys(cat.effects), rep.substats, Code(c));
  }
}
