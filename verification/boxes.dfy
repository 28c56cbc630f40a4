/** The profile page's box view: the summoner's monsters grouped by level
    band, by star grade or by element. */
module Boxes {
  import opened Seqs
  import opened Models

  function OwnedBy(summoner: nat): MonsterInstance -> bool {
    (m: MonsterInstance) => m.owner == summoner
  }

  function LevelAbove(n: int): MonsterInstance -> bool { (m: MonsterInstance) => m.level > n }
  function LevelAtMost(n: int): MonsterInstance -> bool { (m: MonsterInstance) => m.level <= n }
  function StarsAre(n: int): MonsterInstance -> bool { (m: MonsterInstance) => m.stars == n }
  function ElementIs(e: Element): MonsterInstance -> bool { (m: MonsterInstance) => m.species.element == e }

  /** The level boxes "40-31", "30-21", "20-11" and "10-1", each built by
      its own query over the summoner's monsters. */
  function LevelBoxes(ms: seq<MonsterInstance>, summoner: nat): (boxes: seq<seq<MonsterInstance>>)
    ensures |boxes| == 4
  {
    var own := Filter(ms, OwnedBy(summoner));
    seq(4, b requires 0 <= b < 4 => LevelBox(own, b))
  }

  /** The band a level falls in, counted from the top box. */
  function LevelBand(level: int): (b: nat)
    ensures b < 4
  {
    if level > 30 then 0 else if level > 20 then 1 else if level > 10 then 2 else 3
  }

  /** One level box: `level__gt` and `level__lte` as the page writes them. */
  function LevelBox(own: seq<MonsterInstance>, b: nat): (box: seq<MonsterInstance>)
    requires b < 4
    ensures forall m :: m in box <==> m in own && LevelBand(m.level) == b
  {
    if b == 0 then Filter(own, LevelAbove(30))
    else if b == 1 then Band(own, 20, 30)
    else if b == 2 then Band(own, 10, 20)
    else Filter(own, LevelAtMost(10))
  }

  /** The monsters above level `lo` and at most `hi`. */
  function Band(own: seq<MonsterInstance>, lo: int, hi: int): (box: seq<MonsterInstance>)
    ensures forall m :: m in box <==> m in own && lo < m.level <= hi
  {
    Filter(Filter(own, LevelAbove(lo)), LevelAtMost(hi))
  }

  /** Every monster of the summoner is in the box of its band and in no
      other; no other summoner's monster is in any box. */
  lemma LevelBoxesPartition(ms: seq<MonsterInstance>, summoner: nat, m: MonsterInstance, b: nat)
    requires b < 4
    ensures m in LevelBoxes(ms, summoner)[b] <==> m in ms && m.owner == summoner && LevelBand(m.level) == b
  {
    var own := Filter(ms, OwnedBy(summoner));
    assert LevelBoxes(ms, summoner)[b] == LevelBox(own, b);
  }

  /** The four boxes together hold every monster of the summoner once. */
  lemma LevelBoxesCount(ms: seq<MonsterInstance>, summoner: nat)
    ensures var boxes := LevelBoxes(ms, summoner);
      multiset(boxes[0]) + multiset(boxes[1]) + multiset(boxes[2]) + multiset(boxes[3]) == multiset(Filter(ms, OwnedBy(summoner)))
  {
    var own := Filter(ms, OwnedBy(summoner));
    var boxes := LevelBoxes(ms, summoner);
    assert boxes[0] == Filter(own, LevelAbove(30));
    assert boxes[1] == Filter(Filter(own, LevelAbove(20)), LevelAtMost(30));
    assert boxes[2] == Filter(Filter(own, LevelAbove(10)), LevelAtMost(20));
    assert boxes[3] == Filter(own, LevelAtMost(10));
    BandsCount(own);
  }

  lemma BandsCount(own: seq<MonsterInstance>)
    ensures multiset(Filter(own, LevelAbove(30))) + multiset(Filter(Filter(own, LevelAbove(20)), LevelAtMost(30)))
      + multiset(Filter(Filter(own, LevelAbove(10)), LevelAtMost(20))) + multiset(Filter(own, LevelAtMost(10))) == multiset(own)
  {
    var a := Filter(own, LevelAbove(20));
    var low := Filter(own, LevelAtMost(20));
    FilterPartition(own, LevelAbove(20), LevelAtMost(20));
    FilterPartition(a, LevelAbove(30), LevelAtMost(30));
    FilterPartition(low, LevelAbove(10), LevelAtMost(10));
    FilterFuse(own, LevelAbove(20), LevelAbove(30), LevelAbove(30));
    FilterFuse(own, LevelAtMost(20), LevelAbove(10), (m: MonsterInstance) => m.level <= 20 && m.level > 10);
    FilterFuse(own, LevelAbove(10), LevelAtMost(20), (m: MonsterInstance) => m.level <= 20 && m.level > 10);
    FilterFuse(own, LevelAtMost(20), LevelAtMost(10), LevelAtMost(10));
  }

  /** The grade boxes "6*" down to "1*". */
  function GradeBoxes(ms: seq<MonsterInstance>, summoner: nat): (boxes: seq<seq<MonsterInstance>>)
    ensures |boxes| == 6
    ensures forall i :: 0 <= i < 6 ==> boxes[i] == Filter(Filter(ms, OwnedBy(summoner)), StarsAre(6 - i))
  {
    var own := Filter(ms, OwnedBy(summoner));
    seq(6, i requires 0 <= i < 6 => Filter(own, StarsAre(6 - i)))
  }

  /** A monster is in the grade box of its stars; one outside one to six
      stars, as an evolution with the rules ignored can produce, is in none. */
  lemma GradeBoxesPlace(ms: seq<MonsterInstance>, summoner: nat, m: MonsterInstance)
    requires m in ms && m.owner == summoner
    ensures 1 <= m.stars <= 6 ==> m in GradeBoxes(ms, summoner)[6 - m.stars]
    ensures forall i :: 0 <= i < 6 && m in GradeBoxes(ms, summoner)[i] ==> i == 6 - m.stars
  {
  }

  /** The element boxes: water, fire, wind, light, dark. */
  function ElementBoxes(ms: seq<MonsterInstance>, summoner: nat): (boxes: seq<seq<MonsterInstance>>)
    ensures |boxes| == 5
  {
    var own := Filter(ms, OwnedBy(summoner));
    [Filter(own, ElementIs(Water)), Filter(own, ElementIs(Fire)), Filter(own, ElementIs(Wind)),
     Filter(own, ElementIs(Light)), Filter(own, ElementIs(Dark))]
  }

  /** The box of a normal element; no box is declared for any other. */
  function ElementBox(e: Element): (i: nat)
    requires e.Normal()
    ensures i < 5
  {
    match e
    case Water => 0
    case Fire => 1
    case Wind => 2
    case Light => 3
    case Dark => 4
  }

  /** Every monster of the summoner of a normal element is in the box of its
      element and no other; a monster of any other element is in none. */
  lemma ElementBoxesPartition(ms: seq<MonsterInstance>, summoner: nat, m: MonsterInstance, i: nat)
    requires i < 5
    ensures m in ElementBoxes(ms, summoner)[i] <==>
      m in ms && m.owner == summoner && m.species.element.Normal() && ElementBox(m.species.element) == i
  {
  }

  /** A pure monster appears in no element box. */
  lemma PureUnboxed(ms: seq<MonsterInstance>, summoner: nat, m: MonsterInstance)
    requires m.species.element == Pure
    ensures forall i :: 0 <= i < 5 ==> m !in ElementBoxes(ms, summoner)[i]
  {
    forall i | 0 <= i < 5 ensures m !in ElementBoxes(ms, summoner)[i] {
      ElementBoxesPartition(ms, summoner, m, i);
    }
  }
}
