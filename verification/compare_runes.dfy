/** The rune comparison report between a summoner and a follower: a count,
    eight pre-seeded category axes and a worth sum, every leaf scored by the
    winner pass. */
module CompareRunes {
  import opened Optional
  import opened Seqs
  import opened Tallies
  import opened Reports
  import opened Models

  /** The declared categories of the rune tables (display labels are their codes). */
  datatype RuneCatalog = RuneCatalog(stats: seq<int>, sets: seq<int>, qualities: seq<int>)

  /** No category is declared twice. */
  predicate CatalogDistinct(cat: RuneCatalog) {
    NoDup(cat.stats) && NoDup(cat.sets) && NoDup(cat.qualities)
  }

  const StarKeys: seq<Key> := [Code(6), Code(5), Code(4), Code(3), Code(2), Code(1)]
  const SlotKeys: seq<Key> := [Code(1), Code(2), Code(3), Code(4), Code(5), Code(6)]

  function SetKeys(cat: RuneCatalog): seq<Key> { CodeKeys(cat.sets) }
  function QualityKeys(cat: RuneCatalog): seq<Key> { CodeKeys(cat.qualities) + [Absent] }
  function StatKeys(cat: RuneCatalog): seq<Key> { CodeKeys(cat.stats) }
  function InnateKeys(cat: RuneCatalog): seq<Key> { CodeKeys(cat.stats) + [Absent] }

  /** Every category value of the rune is a declared one, so every increment
      lands in a pre-seeded bucket (otherwise the report raises a key error). */
  predicate RuneInCatalog(r: Rune, cat: RuneCatalog) {
    && 1 <= r.stars <= 6
    && 1 <= r.slot <= 6
    && r.runeSet in cat.sets
    && (r.quality.Some? ==> r.quality.value in cat.qualities)
    && (r.originalQuality.Some? ==> r.originalQuality.value in cat.qualities)
    && r.mainStat in cat.stats
    && (r.innateStat.Some? ==> r.innateStat.value in cat.stats)
    && forall i :: 0 <= i < |r.substats| ==> r.substats[i] in cat.stats
  }

  /** The query `owner__in=[summoner, follower]`. */
  function RuneOwned(s: nat, f: nat): Rune -> bool {
    (r: Rune) => r.owner == s || r.owner == f
  }

  function RuneSide(f: nat): Rune -> Side {
    (r: Rune) => SideOf(r.owner, f)
  }

  function StarKey(r: Rune): Key { Code(r.stars) }
  function SlotKey(r: Rune): Key { Code(r.slot) }
  function SetKey(r: Rune): Key { Code(r.runeSet) }
  function QualityKey(r: Rune): Key { OptKey(r.quality) }
  function OriginalQualityKey(r: Rune): Key { OptKey(r.originalQuality) }
  function MainStatKey(r: Rune): Key { Code(r.mainStat) }
  function InnateStatKey(r: Rune): Key { OptKey(r.innateStat) }
  function SubstatKeys(r: Rune): seq<Key> { CodeKeys(r.substats) }
  function RuneWorth(r: Rune): int { r.value }

  datatype RuneReport = RuneReport(
    count: Tally,
    stars: map<Key, Tally>,
    sets: map<Key, Tally>,
    quality: map<Key, Tally>,
    qualityOriginal: map<Key, Tally>,
    slot: map<Key, Tally>,
    mainStat: map<Key, Tally>,
    innateStat: map<Key, Tally>,
    substats: map<Key, Tally>,
    worth: Tally)

  lemma KeysInCatalog(r: Rune, cat: RuneCatalog)
    requires RuneInCatalog(r, cat)
    ensures StarKey(r) in StarKeys && SlotKey(r) in SlotKeys
    ensures SetKey(r) in SetKeys(cat) && MainStatKey(r) in StatKeys(cat)
    ensures QualityKey(r) in QualityKeys(cat) && OriginalQualityKey(r) in QualityKeys(cat)
    ensures InnateStatKey(r) in InnateKeys(cat)
    ensures forall k :: k in SubstatKeys(r) ==> k in StatKeys(cat)
  {
    CodeKeysMember(cat.sets, r.runeSet);
    CodeKeysMember(cat.stats, r.mainStat);
    if r.quality.Some? { CodeKeysMember(cat.qualities, r.quality.value); }
    if r.originalQuality.Some? { CodeKeysMember(cat.qualities, r.originalQuality.value); }
    if r.innateStat.Some? { CodeKeysMember(cat.stats, r.innateStat.value); }
    forall k | k in SubstatKeys(r) ensures k in StatKeys(cat) {
      var i :| 0 <= i < |r.substats| && SubstatKeys(r)[i] == k;
      CodeKeysMember(cat.stats, r.substats[i]);
    }
  }

  /** The one-bucket-per-rune axes of the report. */
  datatype RuneAxis = Stars | Sets | Quality | QualityOriginal | Slot | MainStat | InnateStat

  /** The bucket a rune falls into on an axis. */
  function Bucketing(a: RuneAxis): Rune -> Key {
    match a
    case Stars => StarKey
    case Sets => SetKey
    case Quality => QualityKey
    case QualityOriginal => OriginalQualityKey
    case Slot => SlotKey
    case MainStat => MainStatKey
    case InnateStat => InnateStatKey
  }

  /** The buckets an axis is pre-seeded with. */
  function Declared(a: RuneAxis, cat: RuneCatalog): seq<Key> {
    match a
    case Stars => StarKeys
    case Sets => SetKeys(cat)
    case Quality => QualityKeys(cat)
    case QualityOriginal => QualityKeys(cat)
    case Slot => SlotKeys
    case MainStat => StatKeys(cat)
    case InnateStat => InnateKeys(cat)
  }

  function Column(rep: RuneReport, a: RuneAxis): map<Key, Tally> {
    match a
    case Stars => rep.stars
    case Sets => rep.sets
    case Quality => rep.quality
    case QualityOriginal => rep.qualityOriginal
    case Slot => rep.slot
    case MainStat => rep.mainStat
    case InnateStat => rep.innateStat
  }

  /** Each axis holds exactly its declared buckets. */
  ghost predicate Seeded(rep: RuneReport, cat: RuneCatalog) {
    && (forall a, k :: k in Column(rep, a) <==> k in Declared(a, cat))
    && (forall k :: k in rep.substats <==> k in StatKeys(cat))
  }

  lemma BucketDeclared(r: Rune, cat: RuneCatalog, a: RuneAxis)
    requires RuneInCatalog(r, cat)
    ensures Bucketing(a)(r) in Declared(a, cat)
  {
    KeysInCatalog(r, cat);
  }

  /** One axis of the report over the given runes. */
  function AxisTable(rs: seq<Rune>, f: nat, cat: RuneCatalog, a: RuneAxis): (t: map<Key, Tally>)
    requires forall r :: r in rs ==> RuneInCatalog(r, cat)
    ensures forall k :: k in t <==> k in Declared(a, cat)
  {
    forall r | r in rs ensures Bucketing(a)(r) in Declared(a, cat) {
      BucketDeclared(r, cat, a);
    }
    Axis(Declared(a, cat), rs, Bucketing(a), RuneSide(f), Unit)
  }

  /** The substat axis: each rune adds one to every stat among its substats. */
  function SubstatTable(rs: seq<Rune>, f: nat, cat: RuneCatalog): (t: map<Key, Tally>)
    requires forall r :: r in rs ==> RuneInCatalog(r, cat)
    ensures forall k :: k in t <==> k in StatKeys(cat)
  {
    forall r, k | r in rs && k in SubstatKeys(r) ensures k in Seed(StatKeys(cat)).Keys {
      KeysInCatalog(r, cat);
    }
    Tabulate(Seed(StatKeys(cat)), rs, SubstatKeys, RuneSide(f), Unit)
  }

  /** The population pass of the rune report over the runes of the two owners. */
  function TallyRunes(rs: seq<Rune>, f: nat, cat: RuneCatalog): (rep: RuneReport)
    requires forall r :: r in rs ==> RuneInCatalog(r, cat)
  {
    RuneReport(
      count := Total(rs, RuneSide(f), Unit),
      stars := AxisTable(rs, f, cat, Stars),
      sets := AxisTable(rs, f, cat, Sets),
      quality := AxisTable(rs, f, cat, Quality),
      qualityOriginal := AxisTable(rs, f, cat, QualityOriginal),
      slot := AxisTable(rs, f, cat, Slot),
      mainStat := AxisTable(rs, f, cat, MainStat),
      innateStat := AxisTable(rs, f, cat, InnateStat),
      substats := SubstatTable(rs, f, cat),
      worth := Total(rs, RuneSide(f), RuneWorth))
  }

  lemma ColumnTable(rs: seq<Rune>, f: nat, cat: RuneCatalog, a: RuneAxis)
    requires forall r :: r in rs ==> RuneInCatalog(r, cat)
    ensures Column(TallyRunes(rs, f, cat), a) == AxisTable(rs, f, cat, a)
  {
  }

  /** The pre-seeding is complete: every axis holds exactly its declared
      buckets, whatever runes were read. */
  lemma TallySeeded(rs: seq<Rune>, f: nat, cat: RuneCatalog)
    requires forall r :: r in rs ==> RuneInCatalog(r, cat)
    ensures Seeded(TallyRunes(rs, f, cat), cat)
  {
    forall a {
      ColumnTable(rs, f, cat, a);
    }
  }

  /** The two owners' runes, in query order. */
  function OwnedRunes(all: seq<Rune>, s: nat, f: nat, cat: RuneCatalog): (rs: seq<Rune>)
    requires forall r :: r in all && (r.owner == s || r.owner == f) ==> RuneInCatalog(r, cat)
    ensures forall r :: r in rs ==> RuneInCatalog(r, cat)
    ensures rs == Filter(all, RuneOwned(s, f))
  {
    Filter(all, RuneOwned(s, f))
  }

  /** The runes credited to one column. */
  function RunesOf(all: seq<Rune>, s: nat, f: nat, side: Side): seq<Rune> {
    Filter(Filter(all, RuneOwned(s, f)), InBucket(RuneSide(f), side))
  }

  /** The nested report before the winner pass: entry `i` is keyed by
      `TopNames[i]`, in the source's order. */
  function RuneTree(rep: RuneReport, cat: RuneCatalog): Node
  {
    Group(seq(|TopNames|, i requires 0 <= i < |TopNames| => Entry(Name(TopNames[i]), TopNode(rep, cat, i))))
  }

  /** The value under the `i`-th name: `count`, the seven one-bucket axes,
      `substats`, `worth`. */
  function TopNode(rep: RuneReport, cat: RuneCatalog, i: nat): Node
    requires i < |TopNames|
  {
    if i == 0 then Leaf(rep.count, None)
    else if i == 8 then AxisNode(StatKeys(cat), rep.substats)
    else if i == 9 then Leaf(rep.worth, None)
    else AxisNode(Declared(AxisAt(i), cat), Column(rep, AxisAt(i)))
  }

  /** The axis reported under entry `i`; the inverse of `SectionIndex`. */
  function AxisAt(i: nat): (a: RuneAxis)
    requires 1 <= i <= 7
    ensures SectionIndex(a) == i
  {
    match i
    case 1 => Stars
    case 2 => Sets
    case 3 => Quality
    case 4 => QualityOriginal
    case 5 => Slot
    case 6 => MainStat
    case _ => InnateStat
  }

  function SectionName(a: RuneAxis): string {
    TopNames[SectionIndex(a)]
  }

  function Section(rep: RuneReport, cat: RuneCatalog, a: RuneAxis): Entry
  {
    Entry(Name(SectionName(a)), AxisNode(Declared(a, cat), Column(rep, a)))
  }

  /** The rune comparison: tally both owners' runes, then score every leaf. */
  function Compare(all: seq<Rune>, s: nat, f: nat, cat: RuneCatalog): (report: Node)
    requires forall r :: r in all && (r.owner == s || r.owner == f) ==> RuneInCatalog(r, cat)
    ensures Decided(report)
  {
    FindWinners(RuneTree(TallyRunes(OwnedRunes(all, s, f, cat), f, cat), cat))
  }

  function OwnedBy(o: nat): Rune -> bool {
    (r: Rune) => r.owner == o
  }

  function OwnedByOnly(o: nat, other: nat): Rune -> bool {
    (r: Rune) => r.owner == o && r.owner != other
  }

  /** The two columns never mix: the follower column holds exactly the
      follower's runes, the summoner column exactly the summoner's runes (none
      at all when the two are the same account). */
  lemma Attribution(all: seq<Rune>, s: nat, f: nat)
    ensures RunesOf(all, s, f, Follower) == Filter(all, OwnedBy(f))
    ensures RunesOf(all, s, f, Summoner) == Filter(all, OwnedByOnly(s, f))
  {
    FilterFuse(all, RuneOwned(s, f), InBucket(RuneSide(f), Follower), OwnedBy(f));
    FilterFuse(all, RuneOwned(s, f), InBucket(RuneSide(f), Summoner), OwnedByOnly(s, f));
  }

  /** A single-bucket axis holds, per column, the number of that column's
      runes in the bucket. */
  lemma {:induction false} AxisCounts(all: seq<Rune>, s: nat, f: nat, keys: seq<Key>, keyOf: Rune -> Key, k: Key, side: Side)
    requires forall r :: r in Filter(all, RuneOwned(s, f)) ==> keyOf(r) in keys
    requires k in keys
    ensures Axis(keys, Filter(all, RuneOwned(s, f)), keyOf, RuneSide(f), Unit)[k].Of(side)
            == |Filter(RunesOf(all, s, f, side), InBucket(keyOf, k))|
  {
    var rs := Filter(all, RuneOwned(s, f));
    TotalCounts(Filter(rs, InBucket(keyOf, k)), RuneSide(f), Unit, side);
    FilterCommute(rs, InBucket(keyOf, k), InBucket(RuneSide(f), side));
  }

  /** Every bucket of every one-bucket-per-rune axis counts the runes of that
      column with that category value. */
  lemma RuneBuckets(all: seq<Rune>, s: nat, f: nat, cat: RuneCatalog, a: RuneAxis, k: Key, side: Side)
    requires forall r :: r in all && (r.owner == s || r.owner == f) ==> RuneInCatalog(r, cat)
    requires k in Declared(a, cat)
    ensures k in Column(TallyRunes(OwnedRunes(all, s, f, cat), f, cat), a)
    ensures Column(TallyRunes(OwnedRunes(all, s, f, cat), f, cat), a)[k].Of(side)
            == |Filter(RunesOf(all, s, f, side), InBucket(Bucketing(a), k))|
  {
    var rs := Filter(all, RuneOwned(s, f));
    forall r | r in rs ensures Bucketing(a)(r) in Declared(a, cat) {
      BucketDeclared(r, cat, a);
    }
    ColumnTable(rs, f, cat, a);
    AxisCounts(all, s, f, Declared(a, cat), Bucketing(a), k, side);
  }

  /** `count` holds, per column, the number of runes credited to it. */
  lemma RuneCount(all: seq<Rune>, s: nat, f: nat, cat: RuneCatalog, side: Side)
    requires forall r :: r in all && (r.owner == s || r.owner == f) ==> RuneInCatalog(r, cat)
    ensures TallyRunes(OwnedRunes(all, s, f, cat), f, cat).count.Of(side) == |RunesOf(all, s, f, side)|
  {
    TotalCounts(OwnedRunes(all, s, f, cat), RuneSide(f), Unit, side);
  }

  /** `worth` holds, per column, the sum of the values of its runes. */
  lemma RuneWorthSum(all: seq<Rune>, s: nat, f: nat, cat: RuneCatalog, side: Side)
    requires forall r :: r in all && (r.owner == s || r.owner == f) ==> RuneInCatalog(r, cat)
    ensures TallyRunes(OwnedRunes(all, s, f, cat), f, cat).worth.Of(side) == Sum(RunesOf(all, s, f, side), RuneWorth)
  {
    TotalSide(OwnedRunes(all, s, f, cat), RuneSide(f), RuneWorth, side);
  }

  lemma DeclaredNoDup(cat: RuneCatalog, a: RuneAxis)
    requires CatalogDistinct(cat)
    ensures NoDup(Declared(a, cat))
  {
    CodeKeysNoDup(cat.sets);
    CodeKeysNoDup(cat.qualities);
    CodeKeysNoDup(cat.stats);
  }

  /** Bucket sums: on every one-bucket-per-rune axis, a column's buckets add
      up to that column's `count`, because each rune increments exactly one
      bucket per axis. */
  lemma RuneBucketSums(all: seq<Rune>, s: nat, f: nat, cat: RuneCatalog, a: RuneAxis, side: Side)
    requires CatalogDistinct(cat)
    requires forall r :: r in all && (r.owner == s || r.owner == f) ==> RuneInCatalog(r, cat)
    ensures var rep := TallyRunes(OwnedRunes(all, s, f, cat), f, cat);
      Seeded(rep, cat) && SumOver(Declared(a, cat), Column(rep, a), side) == rep.count.Of(side)
  {
    var rs := OwnedRunes(all, s, f, cat);
    TallySeeded(rs, f, cat);
    ColumnTable(rs, f, cat, a);
    DeclaredNoDup(cat, a);
    forall r | r in rs ensures Bucketing(a)(r) in Declared(a, cat) {
      BucketDeclared(r, cat, a);
    }
    AxisSum(Declared(a, cat), rs, Bucketing(a), RuneSide(f), Unit, side);
  }

  function SubstatCount(r: Rune): int { |r.substats| }

  /** The substat axis counts occurrences: a column's substat buckets add up to
      the total length of its runes' substat lists. */
  lemma RuneSubstatSum(all: seq<Rune>, s: nat, f: nat, cat: RuneCatalog, side: Side)
    requires CatalogDistinct(cat)
    requires forall r :: r in all && (r.owner == s || r.owner == f) ==> RuneInCatalog(r, cat)
    ensures var rep := TallyRunes(OwnedRunes(all, s, f, cat), f, cat);
      Seeded(rep, cat) && SumOver(StatKeys(cat), rep.substats, side) == Sum(RunesOf(all, s, f, side), SubstatCount)
  {
    var rs := OwnedRunes(all, s, f, cat);
    TallySeeded(rs, f, cat);
    CodeKeysNoDup(cat.stats);
    forall r, k | r in rs && k in SubstatKeys(r) ensures k in StatKeys(cat) {
      KeysInCatalog(r, cat);
    }
    forall r: Rune ensures SubstatCount(r) == Unit(r) * |SubstatKeys(r)| {
      assert Unit(r) == 1;
    }
    TableSum(StatKeys(cat), rs, SubstatKeys, RuneSide(f), Unit, SubstatCount, side);
  }

  function SectionIndex(a: RuneAxis): nat {
    match a
    case Stars => 1
    case Sets => 2
    case Quality => 3
    case QualityOriginal => 4
    case Slot => 5
    case MainStat => 6
    case InnateStat => 7
  }

  /** The names of the report's top-level entries, in order. */
  const TopNames: seq<string> := ["count", "stars", "sets", "quality", "quality_original", "slot", "main_stat", "innate_stat", "substats", "worth"]

  lemma NamesDistinct(a: RuneAxis)
    ensures forall j :: 0 <= j < SectionIndex(a) ==> TopNames[j] != SectionName(a)
  {
  }

  /** Entry `i` of the report is keyed by `TopNames[i]`. */
  lemma TopKeys(rep: RuneReport, cat: RuneCatalog)
    ensures forall i :: 0 <= i < |TopNames| ==> RuneTree(rep, cat).entries[i].key == Name(TopNames[i])
  {
  }

  lemma TopSection(rep: RuneReport, cat: RuneCatalog, a: RuneAxis)
    ensures |RuneTree(rep, cat).entries| == |TopNames|
    ensures RuneTree(rep, cat).entries[SectionIndex(a)] == Section(rep, cat, a)
  {
    var i := SectionIndex(a);
    assert AxisAt(i) == a;
  }

  lemma SectionLeaf(rep: RuneReport, cat: RuneCatalog, a: RuneAxis, k: Key)
    requires k in Declared(a, cat) && k in Column(rep, a)
    ensures Lookup(RuneTree(rep, cat), [Name(SectionName(a)), k]) == Some(Leaf(Column(rep, a)[k], None))
  {
    var t := RuneTree(rep, cat);
    var name := Name(SectionName(a));
    TopKeys(rep, cat);
    TopSection(rep, cat, a);
    NamesDistinct(a);
    FindAt(t.entries, SectionIndex(a), name);
    AxisLookup(Declared(a, cat), Column(rep, a), k);
    LookupTwo(t, name, k, Section(rep, cat, a).node, Leaf(Column(rep, a)[k], None));
  }

  /** A report leaf, end to end: under every section and declared bucket the
      scored report holds the two columns' counts of runes in that bucket and
      the majority winner of those counts. */
  lemma RuneLeaf(all: seq<Rune>, s: nat, f: nat, cat: RuneCatalog, a: RuneAxis, k: Key)
    requires forall r :: r in all && (r.owner == s || r.owner == f) ==> RuneInCatalog(r, cat)
    requires k in Declared(a, cat)
    ensures var t := Tally(|Filter(RunesOf(all, s, f, Summoner), InBucket(Bucketing(a), k))|,
                           |Filter(RunesOf(all, s, f, Follower), InBucket(Bucketing(a), k))|);
      Lookup(Compare(all, s, f, cat), [Name(SectionName(a)), k]) == Some(Leaf(t, Some(Decide(t))))
  {
    var rep := TallyRunes(OwnedRunes(all, s, f, cat), f, cat);
    RuneBuckets(all, s, f, cat, a, k, Summoner);
    RuneBuckets(all, s, f, cat, a, k, Follower);
    var t := Column(rep, a)[k];
    assert t == Tally(t.Of(Summoner), t.Of(Follower));
    SectionScored(rep, cat, a, k);
  }

  lemma SectionScored(rep: RuneReport, cat: RuneCatalog, a: RuneAxis, k: Key)
    requires k in Declared(a, cat) && k in Column(rep, a)
    ensures var t := Column(rep, a)[k];
      Lookup(FindWinners(RuneTree(rep, cat)), [Name(SectionName(a)), k]) == Some(Leaf(t, Some(Decide(t))))
  {
    SectionLeaf(rep, cat, a, k);
    ScoredLeaf(rep, cat, [Name(SectionName(a)), k], Column(rep, a)[k]);
  }

  /** A leaf of the tallied tree is, after scoring, the same figures with their winner. */
  lemma ScoredLeaf(rep: RuneReport, cat: RuneCatalog, path: seq<Key>, t: Tally)
    requires Lookup(RuneTree(rep, cat), path) == Some(Leaf(t, None))
    ensures Lookup(FindWinners(RuneTree(rep, cat)), path) == Some(Leaf(t, Some(Decide(t))))
  {
    WinnerAt(RuneTree(rep, cat), path, t, None);
  }

  /** A declared bucket that none of the two owners' runes falls into is
      reported as 0 against 0, a tie. */
  lemma RuneUnseenBucket(all: seq<Rune>, s: nat, f: nat, cat: RuneCatalog, a: RuneAxis, k: Key)
    requires forall r :: r in all && (r.owner == s || r.owner == f) ==> RuneInCatalog(r, cat)
    requires k in Declared(a, cat)
    requires forall r :: r in all && (r.owner == s || r.owner == f) ==> Bucketing(a)(r) != k
    ensures Lookup(Compare(all, s, f, cat), [Name(SectionName(a)), k]) == Some(Leaf(Zero, Some(Tie)))
  {
    RuneLeaf(all, s, f, cat, a, k);
    EmptyBucket(all, s, f, a, k, Summoner);
    EmptyBucket(all, s, f, a, k, Follower);
  }

  lemma EmptyBucket(all: seq<Rune>, s: nat, f: nat, a: RuneAxis, k: Key, side: Side)
    requires forall r :: r in all && (r.owner == s || r.owner == f) ==> Bucketing(a)(r) != k
    ensures Filter(RunesOf(all, s, f, side), InBucket(Bucketing(a), k)) == []
  {
    FilterKeepsNone(RunesOf(all, s, f, side), InBucket(Bucketing(a), k));
  }

  /** The `count` and `worth` leaves of the scored report. */
  lemma RuneTotalsLeaves(all: seq<Rune>, s: nat, f: nat, cat: RuneCatalog)
    requires forall r :: r in all && (r.owner == s || r.owner == f) ==> RuneInCatalog(r, cat)
    ensures var c := Tally(|RunesOf(all, s, f, Summoner)|, |RunesOf(all, s, f, Follower)|);
      Lookup(Compare(all, s, f, cat), [Name("count")]) == Some(Leaf(c, Some(Decide(c))))
    ensures var w := Tally(Sum(RunesOf(all, s, f, Summoner), RuneWorth), Sum(RunesOf(all, s, f, Follower), RuneWorth));
      Lookup(Compare(all, s, f, cat), [Name("worth")]) == Some(Leaf(w, Some(Decide(w))))
  {
    var rep := TallyRunes(OwnedRunes(all, s, f, cat), f, cat);
    RuneCount(all, s, f, cat, Summoner);
    RuneCount(all, s, f, cat, Follower);
    RuneWorthSum(all, s, f, cat, Summoner);
    RuneWorthSum(all, s, f, cat, Follower);
    assert rep.count == Tally(rep.count.Of(Summoner), rep.count.Of(Follower));
    assert rep.worth == Tally(rep.worth.Of(Summoner), rep.worth.Of(Follower));
    TotalsLeaves(rep, cat);
    ScoredLeaf(rep, cat, [Name("count")], rep.count);
    ScoredLeaf(rep, cat, [Name("worth")], rep.worth);
  }

  lemma TotalsLeaves(rep: RuneReport, cat: RuneCatalog)
    ensures Lookup(RuneTree(rep, cat), [Name("count")]) == Some(Leaf(rep.count, None))
    ensures Lookup(RuneTree(rep, cat), [Name("worth")]) == Some(Leaf(rep.worth, None))
  {
    var t := RuneTree(rep, cat);
    TopKeys(rep, cat);
    assert forall j :: 0 <= j < 9 ==> TopNames[j] != TopNames[9];
    FindAt(t.entries, 0, Name(TopNames[0]));
    FindAt(t.entries, 9, Name(TopNames[9]));
    LookupOne(t, Name(TopNames[0]), Leaf(rep.count, None));
    LookupOne(t, Name(TopNames[9]), Leaf(rep.worth, None));
  }
  /** How many times stat `k` occurs among a rune's substats. */
  function SubstatHits(k: Key): Rune -> int {
    (r: Rune) => Occurrences(k, SubstatKeys(r))
  }

  /** Every substat bucket counts, per column, the occurrences of that stat
      among the substats of the column's runes. */
  lemma RuneSubstatBucket(all: seq<Rune>, s: nat, f: nat, cat: RuneCatalog, k: Key, side: Side)
    requires forall r :: r in all && (r.owner == s || r.owner == f) ==> RuneInCatalog(r, cat)
    requires k in StatKeys(cat)
    ensures var rep := TallyRunes(OwnedRunes(all, s, f, cat), f, cat);
      k in rep.substats && rep.substats[k].Of(side) == Sum(RunesOf(all, s, f, side), SubstatHits(k))
  {
    var rs := OwnedRunes(all, s, f, cat);
    forall r, j | r in rs && j in SubstatKeys(r) ensures j in Seed(StatKeys(cat)).Keys {
      KeysInCatalog(r, cat);
    }
    forall r: Rune ensures SubstatHits(k)(r) == Unit(r) * Occurrences(k, SubstatKeys(r)) {
      assert Unit(r) == 1;
    }
    TableBucket(StatKeys(cat), rs, SubstatKeys, RuneSide(f), Unit, SubstatHits(k), k, side);
  }

  /** A substat bucket of the tallied tree is, after scoring, the same figures
      with their winner. */
  lemma SubstatScored(rep: RuneReport, cat: RuneCatalog, k: Key)
    requires k in StatKeys(cat) && k in rep.substats
    ensures var t := rep.substats[k];
      Lookup(FindWinners(RuneTree(rep, cat)), [Name("substats"), k]) == Some(Leaf(t, Some(Decide(t))))
  {
    var t := RuneTree(rep, cat);
    var name := Name(TopNames[8]);
    TopKeys(rep, cat);
    assert forall j :: 0 <= j < 8 ==> TopNames[j] != TopNames[8];
    FindAt(t.entries, 8, name);
    assert t.entries[8].node == AxisNode(StatKeys(cat), rep.substats);
    AxisLookup(StatKeys(cat), rep.substats, k);
    LookupTwo(t, name, k, AxisNode(StatKeys(cat), rep.substats), Leaf(rep.substats[k], None));
    ScoredLeaf(rep, cat, [name, k], rep.substats[k]);
  }

  /** A substat leaf, end to end: under every declared stat the scored report
      holds, per column, how many times that stat occurs among the substats of
      the column's runes, and the majority winner of those figures. */
  lemma RuneSubstatLeaf(all: seq<Rune>, s: nat, f: nat, cat: RuneCatalog, k: Key)
    requires forall r :: r in all && (r.owner == s || r.owner == f) ==> RuneInCatalog(r, cat)
    requires k in StatKeys(cat)
    ensures var t := Tally(Sum(RunesOf(all, s, f, Summoner), SubstatHits(k)),
                           Sum(RunesOf(all, s, f, Follower), SubstatHits(k)));
      Lookup(Compare(all, s, f, cat), [Name("substats"), k]) == Some(Leaf(t, Some(Decide(t))))
  {
    var rep := TallyRunes(OwnedRunes(all, s, f, cat), f, cat);
    RuneSubstatBucket(all, s, f, cat, k, Summoner);
    RuneSubstatBucket(all, s, f, cat, k, Follower);
    var t := rep.substats[k];
    assert t == Tally(t.Of(Summoner), t.Of(Follower));
    SubstatScored(rep, cat, k);
  }

  /** A declared stat that is a substat of none of the two owners' runes is
      reported as 0 against 0, a tie. */
  lemma RuneUnseenSubstat(all: seq<Rune>, s: nat, f: nat, cat: RuneCatalog, c: int)
    requires forall r :: r in all && (r.owner == s || r.owner == f) ==> RuneInCatalog(r, cat)
    requires c in cat.stats
    requires forall r :: r in all && (r.owner == s || r.owner == f) ==> c !in r.substats
    ensures Lookup(Compare(all, s, f, cat), [Name("substats"), Code(c)]) == Some(Leaf(Zero, Some(Tie)))
  {
    var rs := OwnedRunes(all, s, f, cat);
    var rep := TallyRunes(rs, f, cat);
    CodeKeysMember(cat.stats, c);
    forall r, j | r in rs && j in SubstatKeys(r) ensures j in Seed(StatKeys(cat)).Keys {
      KeysInCatalog(r, cat);
    }
    forall r | r in rs ensures Code(c) !in SubstatKeys(r) {
      CodeKeysMember(r.substats, c);
    }
    TableUnhit(StatKeys(cat), rs, SubstatKeys, RuneSide(f), Unit, Code(c));
    SubstatScored(rep, cat, Code(c));
  }
}
