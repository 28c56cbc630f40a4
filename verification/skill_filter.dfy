/** The skill-effect filter of the monster listing: effects, scaling stats,
    a cooldown range, a hit-count range, passive and aoe flags, applied either
    "any skill" (each criterion may be met by a different skill of the
    monster) or "same skill" (one skill must meet them all). */
module SkillFilter {
  import opened Optional
  import opened Seqs
  import opened Parsing
  import opened Models

  // ---------------------------------------------------------------- ranges

  /** A `"min,max"` pair as the filter reads it; both bounds or neither. */
  datatype Bounds = Bounds(min: Option<int>, max: Option<int>)

  /** Split on commas, unpack exactly two pieces, `int()` each; any failure
      drops both bounds. */
  function ParseBounds(text: string): (b: Bounds)
    ensures b.min.Some? <==> b.max.Some?
    ensures Count(text, ',') != 1 ==> b == Bounds(None, None)
  {
    var parts := Split(text, ',');
    if |parts| != 2 then Bounds(None, None)
    else
      match (ParseInt(parts[0]), ParseInt(parts[1]))
      case (Some(lo), Some(hi)) => Bounds(Some(lo), Some(hi))
      case _ => Bounds(None, None)
  }

  /** Round trip: the pair the listing's range widgets produce is read back
      exactly. */
  lemma ParseBoundsShow(lo: int, hi: int)
    ensures ParseBounds(Show(lo) + "," + Show(hi)) == Bounds(Some(lo), Some(hi))
  {
    SplitShowPair(lo, hi);
    ParseShow(lo);
    ParseShow(hi);
  }

  /** The pair splits back into the two numbers' texts. */
  lemma SplitShowPair(lo: int, hi: int)
    ensures Split(Show(lo) + "," + Show(hi), ',') == [Show(lo), Show(hi)]
  {
    ShowNoComma(lo);
    ShowNoComma(hi);
    SplitPair(Show(lo), Show(hi));
  }

  /** Two comma-free pieces joined by one comma split back into the two. */
  lemma SplitPair(a: string, b: string)
    requires ',' !in a && ',' !in b
    ensures Split(a + "," + b, ',') == [a, b]
  {
    CommaCount(a, b);
    var parts := Split(a + "," + b, ',');
    PairOfPieces(parts, a, b);
  }

  lemma ShowNoComma(n: int)
    ensures ',' !in Show(n)
  {
    var m: nat := if n < 0 then -n else n;
    assert forall i :: 0 <= i < |ShowNat(m)| ==> ShowNat(m)[i] != ',';
    if n < 0 {
      assert Show(n) == "-" + ShowNat(m);
    }
  }

  /** Two comma-free pieces joined by a comma hold exactly one comma. */
  lemma CommaCount(a: string, b: string)
    requires ',' !in a && ',' !in b
    ensures Count(a + "," + b, ',') == 1
  {
    CountAbsent(a, ',');
    CountAbsent(b, ',');
    CountSplit(a, "," + b, ',');
    CountSplit(",", b, ',');
    assert a + "," + b == a + ("," + b);
    assert ","[1..] == [];
  }

  /** Two comma-free pieces that join to `a + "," + b` are `a` and `b`. */
  lemma PairOfPieces(parts: seq<string>, a: string, b: string)
    requires |parts| == 2 && Join(parts, ',') == a + "," + b
    requires ',' !in parts[0] && ',' !in parts[1] && ',' !in a && ',' !in b
    ensures parts == [a, b]
  {
    assert parts[1..] == [parts[1]];
    assert Join(parts, ',') == parts[0] + "," + parts[1];
    JoinTwo(parts[0], parts[1], a, b);
  }

  /** Two comma-free pieces joined by one comma are recovered by position. */
  lemma JoinTwo(a: string, b: string, x: string, y: string)
    requires ',' !in a && ',' !in b && ',' !in x && ',' !in y
    requires a + "," + b == x + "," + y
    ensures a == x && b == y
  {
    var s := a + "," + b;
    assert s[|a|] == ',' && s[|x|] == ',';
    assert |a| == |x|;
    assert a == s[..|a|] && x == s[..|x|];
    assert b == s[|a| + 1..] && y == s[|x| + 1..];
  }

  // ---------------------------------------------------------------- cooldown

  /** The cooldown query: `cooltime <= upTo`, `cooltime >= from`, each only
      for a positive bound, and `OR cooltime IS NULL` when a bound is zero. */
  datatype CooltimeQuery = CooltimeQuery(upTo: Option<int>, from: Option<int>, orNull: bool)

  function CooltimeQueryOf(b: Bounds): (q: CooltimeQuery)
    ensures q.upTo.Some? <==> b.max.Some? && b.max.value > 0
    ensures q.upTo.Some? ==> q.upTo.value == b.max.value
    ensures q.from.Some? <==> b.min.Some? && b.min.value > 0
    ensures q.from.Some? ==> q.from.value == b.min.value
    ensures q.orNull <==> b.min == Some(0) || b.max == Some(0)
  {
    CooltimeQuery(
      if b.max.Some? && b.max.value > 0 then b.max else None,
      if b.min.Some? && b.min.value > 0 then b.min else None,
      b.min == Some(0) || b.max == Some(0))
  }

  /** A non-empty query: only then is the filter applied. */
  predicate Constrains(q: CooltimeQuery) {
    q.upTo.Some? || q.from.Some? || q.orNull
  }

  predicate Ranged(q: CooltimeQuery) {
    q.upTo.Some? || q.from.Some?
  }

  /** A cooldown value satisfies the query. An empty range combined with the
      null rule is the null test alone; a null cooldown fails every range. */
  predicate CooltimeOk(q: CooltimeQuery, c: Option<int>) {
    || (Ranged(q) && c.Some?
        && (q.upTo.Some? ==> c.value <= q.upTo.value)
        && (q.from.Some? ==> c.value >= q.from.value))
    || (q.orNull && c.None?)
  }

  /** Fail open: a text that is not two integers around one comma imposes
      no cooldown bound at all. */
  lemma CooltimeFailOpen(text: string)
    requires var parts := Split(text, ',');
      Count(text, ',') != 1 || ParseInt(parts[0]).None? || ParseInt(parts[|parts| - 1]).None?
    ensures ParseBounds(text) == Bounds(None, None)
    ensures !Constrains(CooltimeQueryOf(ParseBounds(text)))
  {
  }

  /** A zero bound lets every skill without a cooldown through. */
  lemma CooltimeZeroBound(b: Bounds)
    requires b.min == Some(0) || b.max == Some(0)
    ensures Constrains(CooltimeQueryOf(b)) && CooltimeOk(CooltimeQueryOf(b), None)
  {
  }

  /** `"0,0"` keeps exactly the skills without a cooldown. */
  lemma CooltimeZeroZero(c: Option<int>)
    ensures CooltimeOk(CooltimeQueryOf(ParseBounds("0,0")), c) <==> c.None?
  {
    ParseBoundsShow(0, 0);
    assert Show(0) + "," + Show(0) == "0,0";
  }

  /** Two positive bounds are an inclusive range that excludes null cooldowns. */
  lemma CooltimePositive(lo: int, hi: int, c: Option<int>)
    requires lo > 0 && hi > 0
    ensures CooltimeOk(CooltimeQueryOf(Bounds(Some(lo), Some(hi))), c) <==> c.Some? && lo <= c.value <= hi
  {
  }

  /** A negative bound is ignored, a zero one adds the null rule, and the
      other positive bound still applies. */
  lemma CooltimeNegativeIgnored(lo: int, hi: int, c: Option<int>)
    requires lo < 0 && hi > 0
    ensures CooltimeOk(CooltimeQueryOf(Bounds(Some(lo), Some(hi))), c) <==> c.Some? && c.value <= hi
  {
  }

  // ---------------------------------------------------------------- hits

  /** Python truthiness of a parsed bound: present and non-zero. */
  predicate Truthy(o: Option<int>) {
    o.Some? && o.value != 0
  }

  // ---------------------------------------------------------------- criteria

  /** The filter's value (the requested effects) and the sibling fields it
      reads. A missing `effects_logic` reads as false. */
  datatype SkillCriteria = SkillCriteria(
    effects: seq<int>,
    scaling: seq<int>,
    cooltimeText: string,
    hitsText: string,
    passive: Option<bool>,
    aoe: Option<bool>,
    effectsLogic: Option<bool>)

  /** The reference conjunction: one skill meets every requested criterion. */
  predicate SkillMatches(c: SkillCriteria, sk: Skill) {
    MeetsAll(c, CooltimeQueryOf(ParseBounds(c.cooltimeText)), ParseBounds(c.hitsText), sk)
  }

  /** The conjunction with the two ranges already read. */
  predicate MeetsAll(c: SkillCriteria, q: CooltimeQuery, h: Bounds, sk: Skill) {
    && ContainsAll(sk.effects, c.effects)
    && ContainsAll(sk.scalingStats, c.scaling)
    && (Constrains(q) ==> CooltimeOk(q, sk.cooltime))
    && (Truthy(h.max) ==> sk.hits <= h.max.value)
    && (Truthy(h.min) ==> sk.hits >= h.min.value)
    && (c.passive.Some? ==> sk.passive == c.passive.value)
    && (c.aoe.Some? ==> sk.aoe == c.aoe.value)
  }

  // ---------------------------------------------------------------- same skill

  function HasEffect(e: int): Skill -> bool { (sk: Skill) => e in sk.effects }
  function HasScaling(st: int): Skill -> bool { (sk: Skill) => st in sk.scalingStats }
  function InCooltime(q: CooltimeQuery): Skill -> bool { (sk: Skill) => CooltimeOk(q, sk.cooltime) }
  function InHits(h: Bounds): Skill -> bool {
    (sk: Skill) => (Truthy(h.max) ==> sk.hits <= h.max.value) && (Truthy(h.min) ==> sk.hits >= h.min.value)
  }
  function PassiveIs(p: Option<bool>): Skill -> bool { (sk: Skill) => p.Some? ==> sk.passive == p.value }
  function AoeIs(a: Option<bool>): Skill -> bool { (sk: Skill) => a.Some? ==> sk.aoe == a.value }

  /** `for effect in value: skills = skills.filter(effect=effect)`. */
  function EachEffect(skills: seq<Skill>, effects: seq<int>): (r: seq<Skill>)
    ensures forall sk :: sk in r <==> sk in skills && ContainsAll(sk.effects, effects)
    decreases |effects|
  {
    if effects == [] then skills
    else
      var r := EachEffect(Filter(skills, HasEffect(effects[0])), effects[1..]);
      assert forall sk: Skill :: ContainsAll(sk.effects, effects) <==>
        effects[0] in sk.effects && ContainsAll(sk.effects, effects[1..]) by {
        forall sk: Skill ensures ContainsAll(sk.effects, effects) <==>
          effects[0] in sk.effects && ContainsAll(sk.effects, effects[1..]) {
          ContainsAllCons(sk.effects, effects);
        }
      }
      r
  }

  /** `for pk in stat_scaling: skills = skills.filter(scaling_stats=pk)`. */
  function EachScaling(skills: seq<Skill>, stats: seq<int>): (r: seq<Skill>)
    ensures forall sk :: sk in r <==> sk in skills && ContainsAll(sk.scalingStats, stats)
    decreases |stats|
  {
    if stats == [] then skills
    else
      var r := EachScaling(Filter(skills, HasScaling(stats[0])), stats[1..]);
      assert forall sk: Skill :: ContainsAll(sk.scalingStats, stats) <==>
        stats[0] in sk.scalingStats && ContainsAll(sk.scalingStats, stats[1..]) by {
        forall sk: Skill ensures ContainsAll(sk.scalingStats, stats) <==>
          stats[0] in sk.scalingStats && ContainsAll(sk.scalingStats, stats[1..]) {
          ContainsAllCons(sk.scalingStats, stats);
        }
      }
      r
  }

  function When(cond: bool, xs: seq<Skill>, p: Skill -> bool): (r: seq<Skill>)
    ensures forall sk :: sk in r <==> sk in xs && (cond ==> p(sk))
  {
    if cond then Filter(xs, p) else xs
  }

  /** The skills of the whole skill table that meet every criterion, built
      one `.filter()` at a time as the listing does. */
  function MatchingSkills(all: seq<Skill>, c: SkillCriteria): seq<Skill> {
    Chain(all, c, CooltimeQueryOf(ParseBounds(c.cooltimeText)), ParseBounds(c.hitsText))
  }

  /** The chain of filters with the two ranges already read. */
  function Chain(all: seq<Skill>, c: SkillCriteria, q: CooltimeQuery, h: Bounds): seq<Skill> {
    var s1 := EachScaling(EachEffect(all, c.effects), c.scaling);
    var s2 := When(Constrains(q), s1, InCooltime(q));
    var s3 := When(Truthy(h.max) || Truthy(h.min), s2, InHits(h));
    var s4 := When(c.passive.Some?, s3, PassiveIs(c.passive));
    When(c.aoe.Some?, s4, AoeIs(c.aoe))
  }

  /** The sequence of filters selects exactly the skills meeting the
      reference conjunction. */
  lemma MatchingSkillsSpec(all: seq<Skill>, c: SkillCriteria, sk: Skill)
    ensures sk in MatchingSkills(all, c) <==> sk in all && SkillMatches(c, sk)
  {
  }

  /** `monster__skills__in=skills`: some skill of the monster's species is
      among the matching ones. */
  function HasSkillIn(matching: seq<Skill>): MonsterInstance -> bool {
    (m: MonsterInstance) => exists i :: 0 <= i < |m.species.skills| && m.species.skills[i] in matching
  }

  /** Same-skill mode, with the short-circuit: when every skill of the table
      matches (no criterion narrows anything), the input is returned. */
  function SameSkill(ms: seq<MonsterInstance>, all: seq<Skill>, c: SkillCriteria): seq<MonsterInstance> {
    var matching := MatchingSkills(all, c);
    if |all| == |matching| then ms else Filter(ms, HasSkillIn(matching))
  }

  /** The short-circuit fires exactly when every skill of the table matches. */
  lemma SameSkillShortCircuit(ms: seq<MonsterInstance>, all: seq<Skill>, c: SkillCriteria)
    requires forall i :: 0 <= i < |all| ==> SkillMatches(c, all[i])
    ensures SameSkill(ms, all, c) == ms
  {
    var matching := MatchingSkills(all, c);
    forall sk | sk in all ensures sk in matching {
      MatchingSkillsSpec(all, c, sk);
    }
    SameSkillLength(all, c);
  }

  /** The chain of skill filters loses nothing exactly when every skill of
      the table matches. */
  lemma SameSkillLength(all: seq<Skill>, c: SkillCriteria)
    ensures |MatchingSkills(all, c)| == |all| <==> forall i :: 0 <= i < |all| ==> SkillMatches(c, all[i])
  {
    if |MatchingSkills(all, c)| == |all| {
      forall i | 0 <= i < |all| ensures SkillMatches(c, all[i]) {
        FullChainKeeps(all, c, CooltimeQueryOf(ParseBounds(c.cooltimeText)), ParseBounds(c.hitsText), all[i]);
        MatchingSkillsSpec(all, c, all[i]);
      }
    }
    if forall i :: 0 <= i < |all| ==> SkillMatches(c, all[i]) {
      ChainKeepsAll(all, c, CooltimeQueryOf(ParseBounds(c.cooltimeText)), ParseBounds(c.hitsText));
    }
  }

  /** What one stage of filtering guarantees about sizes and contents. */
  lemma Stage(xs: seq<Skill>, ys: seq<Skill>, p: Skill -> bool)
    requires ys == Filter(xs, p)
    ensures |ys| <= |xs|
    ensures |ys| == |xs| ==> forall x :: x in xs ==> x in ys
    ensures (forall x :: x in xs ==> p(x)) ==> ys == xs
  {
    if |ys| == |xs| {
      FilterFullLength(xs, p);
    }
    if forall x :: x in xs ==> p(x) {
      FilterKeepsAll(xs, p);
    }
  }

  lemma WhenStage(cond: bool, xs: seq<Skill>, p: Skill -> bool)
    ensures |When(cond, xs, p)| <= |xs|
    ensures |When(cond, xs, p)| == |xs| ==> forall x :: x in xs ==> x in When(cond, xs, p)
    ensures (forall x :: x in xs ==> cond ==> p(x)) ==> When(cond, xs, p) == xs
  {
    if cond {
      Stage(xs, Filter(xs, p), p);
    }
  }

  lemma EffectStage(skills: seq<Skill>, effects: seq<int>)
    ensures |EachEffect(skills, effects)| <= |skills|
    ensures |EachEffect(skills, effects)| == |skills| ==> forall x :: x in skills ==> x in EachEffect(skills, effects)
    ensures (forall x :: x in skills ==> ContainsAll(x.effects, effects)) ==> EachEffect(skills, effects) == skills
  {
    var p := (sk: Skill) => ContainsAll(sk.effects, effects);
    EachEffectIs(skills, effects, p);
    Stage(skills, EachEffect(skills, effects), p);
  }

  lemma ScalingStage(skills: seq<Skill>, stats: seq<int>)
    ensures |EachScaling(skills, stats)| <= |skills|
    ensures |EachScaling(skills, stats)| == |skills| ==> forall x :: x in skills ==> x in EachScaling(skills, stats)
    ensures (forall x :: x in skills ==> ContainsAll(x.scalingStats, stats)) ==> EachScaling(skills, stats) == skills
  {
    var p := (sk: Skill) => ContainsAll(sk.scalingStats, stats);
    EachScalingIs(skills, stats, p);
    Stage(skills, EachScaling(skills, stats), p);
  }

  lemma {:induction false} EachEffectIs(skills: seq<Skill>, effects: seq<int>, p: Skill -> bool)
    requires forall sk :: p(sk) == ContainsAll(sk.effects, effects)
    ensures EachEffect(skills, effects) == Filter(skills, p)
    decreases |effects|
  {
    if effects == [] {
      FilterKeepsAll(skills, p);
    } else {
      var p1 := (sk: Skill) => ContainsAll(sk.effects, effects[1..]);
      EachEffectIs(Filter(skills, HasEffect(effects[0])), effects[1..], p1);
      forall sk: Skill ensures p(sk) == (HasEffect(effects[0])(sk) && p1(sk)) {
        ContainsAllCons(sk.effects, effects);
      }
      FilterFuse(skills, HasEffect(effects[0]), p1, p);
    }
  }

  lemma {:induction false} EachScalingIs(skills: seq<Skill>, stats: seq<int>, p: Skill -> bool)
    requires forall sk :: p(sk) == ContainsAll(sk.scalingStats, stats)
    ensures EachScaling(skills, stats) == Filter(skills, p)
    decreases |stats|
  {
    if stats == [] {
      FilterKeepsAll(skills, p);
    } else {
      var p1 := (sk: Skill) => ContainsAll(sk.scalingStats, stats[1..]);
      EachScalingIs(Filter(skills, HasScaling(stats[0])), stats[1..], p1);
      forall sk: Skill ensures p(sk) == (HasScaling(stats[0])(sk) && p1(sk)) {
        ContainsAllCons(sk.scalingStats, stats);
      }
      FilterFuse(skills, HasScaling(stats[0]), p1, p);
    }
  }

  /** If the whole chain keeps the table's length, it keeps every skill. */
  lemma FullChainKeeps(all: seq<Skill>, c: SkillCriteria, q: CooltimeQuery, h: Bounds, sk: Skill)
    requires |Chain(all, c, q, h)| == |all| && sk in all
    ensures sk in Chain(all, c, q, h)
  {
    var s0 := EachEffect(all, c.effects);
    var s1 := EachScaling(s0, c.scaling);
    var s2 := When(Constrains(q), s1, InCooltime(q));
    var s3 := When(Truthy(h.max) || Truthy(h.min), s2, InHits(h));
    var s4 := When(c.passive.Some?, s3, PassiveIs(c.passive));
    EffectStage(all, c.effects);
    ScalingStage(s0, c.scaling);
    WhenStage(Constrains(q), s1, InCooltime(q));
    WhenStage(Truthy(h.max) || Truthy(h.min), s2, InHits(h));
    WhenStage(c.passive.Some?, s3, PassiveIs(c.passive));
    WhenStage(c.aoe.Some?, s4, AoeIs(c.aoe));
  }

  /** If every skill matches, no stage of the chain drops one. */
  lemma ChainKeepsAll(all: seq<Skill>, c: SkillCriteria, q: CooltimeQuery, h: Bounds)
    requires forall i :: 0 <= i < |all| ==> MeetsAll(c, q, h, all[i])
    ensures Chain(all, c, q, h) == all
  {
    assert forall x :: x in all ==> MeetsAll(c, q, h, x);
    EffectStage(all, c.effects);
    ScalingStage(all, c.scaling);
    WhenStage(Constrains(q), all, InCooltime(q));
    WhenStage(Truthy(h.max) || Truthy(h.min), all, InHits(h));
    WhenStage(c.passive.Some?, all, PassiveIs(c.passive));
    WhenStage(c.aoe.Some?, all, AoeIs(c.aoe));
  }

  /** Same-skill mode, when the short-circuit does not fire: a monster is kept
      iff one of its skills meets every criterion at once. */
  lemma SameSkillKeeps(ms: seq<MonsterInstance>, all: seq<Skill>, c: SkillCriteria, m: MonsterInstance)
    requires exists i :: 0 <= i < |all| && !SkillMatches(c, all[i])
    requires forall i :: 0 <= i < |m.species.skills| ==> m.species.skills[i] in all
    ensures m in SameSkill(ms, all, c) <==>
      m in ms && exists i :: 0 <= i < |m.species.skills| && SkillMatches(c, m.species.skills[i])
  {
    SameSkillLength(all, c);
    forall i | 0 <= i < |m.species.skills|
      ensures m.species.skills[i] in MatchingSkills(all, c) <==> SkillMatches(c, m.species.skills[i])
    {
      MatchingSkillsSpec(all, c, m.species.skills[i]);
    }
  }

  // ---------------------------------------------------------------- any skill

  function SomeSkill(p: Skill -> bool): MonsterInstance -> bool {
    (m: MonsterInstance) => exists i :: 0 <= i < |m.species.skills| && p(m.species.skills[i])
  }

  /** The cooldown filter on the monster-to-skill join: the null rule uses an
      outer join, so a monster without skills also reads as "null cooldown". */
  function CooltimeJoin(q: CooltimeQuery): MonsterInstance -> bool {
    (m: MonsterInstance) =>
      (exists i :: 0 <= i < |m.species.skills| && CooltimeOk(q, m.species.skills[i].cooltime))
      || (q.orNull && m.species.skills == [])
  }

  function EachMonsterEffect(ms: seq<MonsterInstance>, effects: seq<int>): (r: seq<MonsterInstance>)
    ensures |r| <= |ms|
    ensures forall m :: m in r <==> m in ms && forall j :: 0 <= j < |effects| ==> SomeSkill(HasEffect(effects[j]))(m)
    decreases |effects|
  {
    if effects == [] then ms
    else
      var r := EachMonsterEffect(Filter(ms, SomeSkill(HasEffect(effects[0]))), effects[1..]);
      assert forall j :: 0 <= j < |effects[1..]| ==> effects[1..][j] == effects[j + 1];
      r
  }

  function EachMonsterScaling(ms: seq<MonsterInstance>, stats: seq<int>): (r: seq<MonsterInstance>)
    ensures |r| <= |ms|
    ensures forall m :: m in r <==> m in ms && forall j :: 0 <= j < |stats| ==> SomeSkill(HasScaling(stats[j]))(m)
    decreases |stats|
  {
    if stats == [] then ms
    else
      var r := EachMonsterScaling(Filter(ms, SomeSkill(HasScaling(stats[0]))), stats[1..]);
      assert forall j :: 0 <= j < |stats[1..]| ==> stats[1..][j] == stats[j + 1];
      r
  }

  function WhenM(cond: bool, ms: seq<MonsterInstance>, p: MonsterInstance -> bool): (r: seq<MonsterInstance>)
    ensures |r| <= |ms|
    ensures forall m :: m in r <==> m in ms && (cond ==> p(m))
  {
    if cond then Filter(ms, p) else ms
  }

  function HitsAtMost(n: int): Skill -> bool { (sk: Skill) => sk.hits <= n }
  function HitsAtLeast(n: int): Skill -> bool { (sk: Skill) => sk.hits >= n }

  /** Any-skill mode: one `.filter()` on the monster-to-skill join per
      criterion, so each may be met by a different skill. */
  function AnySkill(ms: seq<MonsterInstance>, c: SkillCriteria): seq<MonsterInstance> {
    var q := CooltimeQueryOf(ParseBounds(c.cooltimeText));
    var h := ParseBounds(c.hitsText);
    var m1 := EachMonsterScaling(EachMonsterEffect(ms, c.effects), c.scaling);
    var m2 := WhenM(Constrains(q), m1, CooltimeJoin(q));
    var m3 := WhenM(Truthy(h.max), m2, SomeSkill(HitsAtMost(if h.max.Some? then h.max.value else 0)));
    var m4 := WhenM(Truthy(h.min), m3, SomeSkill(HitsAtLeast(if h.min.Some? then h.min.value else 0)));
    var m5 := WhenM(c.passive.Some?, m4, SomeSkill(PassiveIs(c.passive)));
    WhenM(c.aoe.Some?, m5, SomeSkill(AoeIs(c.aoe)))
  }

  /** Any-skill mode keeps a monster iff each criterion, on its own, is met
      by some skill of the monster (the cooldown one also by having no skill
      at all when it admits null cooldowns). */
  lemma AnySkillSpec(ms: seq<MonsterInstance>, c: SkillCriteria, m: MonsterInstance)
    ensures m in AnySkill(ms, c) <==> m in ms && EachCriterionMet(c, m)
  {
  }

  /** Every criterion, taken on its own, is met by some skill of `m`. */
  predicate EachCriterionMet(c: SkillCriteria, m: MonsterInstance) {
    var q := CooltimeQueryOf(ParseBounds(c.cooltimeText));
    var h := ParseBounds(c.hitsText);
        && (forall j :: 0 <= j < |c.effects| ==> SomeSkill(HasEffect(c.effects[j]))(m))
        && (forall j :: 0 <= j < |c.scaling| ==> SomeSkill(HasScaling(c.scaling[j]))(m))
        && (Constrains(q) ==> CooltimeJoin(q)(m))
        && (Truthy(h.max) ==> SomeSkill(HitsAtMost(h.max.value))(m))
        && (Truthy(h.min) ==> SomeSkill(HitsAtLeast(h.min.value))(m))
        && (c.passive.Some? ==> SomeSkill(PassiveIs(c.passive))(m))
        && (c.aoe.Some? ==> SomeSkill(AoeIs(c.aoe))(m))
  }

  /** Same-skill mode is the stricter one: a monster with skills that it
      keeps, any-skill mode keeps too. */
  lemma SameSkillWithinAny(ms: seq<MonsterInstance>, all: seq<Skill>, c: SkillCriteria, m: MonsterInstance)
    requires forall i :: 0 <= i < |m.species.skills| ==> m.species.skills[i] in all
    requires m.species.skills != []
    requires m in SameSkill(ms, all, c)
    ensures m in AnySkill(ms, c)
  {
    var sks := m.species.skills;
    var k: int;
    if |MatchingSkills(all, c)| == |all| {
      SameSkillLength(all, c);
      k := 0;
      assert sks[0] in all;
    } else {
      k :| 0 <= k < |sks| && sks[k] in MatchingSkills(all, c);
      MatchingSkillsSpec(all, c, sks[k]);
    }
    assert SkillMatches(c, sks[k]);
    OneSkillMeetsAll(ms, c, m, k);
  }

  lemma OneSkillMeetsAll(ms: seq<MonsterInstance>, c: SkillCriteria, m: MonsterInstance, k: int)
    requires m in ms && 0 <= k < |m.species.skills| && SkillMatches(c, m.species.skills[k])
    ensures m in AnySkill(ms, c)
  {
    var sk := m.species.skills[k];
    SkillMeetsEffects(c, m, k);
    SkillMeetsRest(c, m, k);
    AnySkillSpec(ms, c, m);
  }

  lemma SkillMeetsEffects(c: SkillCriteria, m: MonsterInstance, k: int)
    requires 0 <= k < |m.species.skills|
    requires ContainsAll(m.species.skills[k].effects, c.effects)
    requires ContainsAll(m.species.skills[k].scalingStats, c.scaling)
    ensures forall j :: 0 <= j < |c.effects| ==> SomeSkill(HasEffect(c.effects[j]))(m)
    ensures forall j :: 0 <= j < |c.scaling| ==> SomeSkill(HasScaling(c.scaling[j]))(m)
  {
    var sk := m.species.skills[k];
    forall j | 0 <= j < |c.effects| ensures SomeSkill(HasEffect(c.effects[j]))(m) {
      assert HasEffect(c.effects[j])(sk);
    }
    forall j | 0 <= j < |c.scaling| ensures SomeSkill(HasScaling(c.scaling[j]))(m) {
      assert HasScaling(c.scaling[j])(sk);
    }
  }

  lemma SkillMeetsRest(c: SkillCriteria, m: MonsterInstance, k: int)
    requires 0 <= k < |m.species.skills| && SkillMatches(c, m.species.skills[k])
    ensures var q := CooltimeQueryOf(ParseBounds(c.cooltimeText));
            var h := ParseBounds(c.hitsText);
      && (Constrains(q) ==> CooltimeJoin(q)(m))
      && (Truthy(h.max) ==> SomeSkill(HitsAtMost(h.max.value))(m))
      && (Truthy(h.min) ==> SomeSkill(HitsAtLeast(h.min.value))(m))
      && (c.passive.Some? ==> SomeSkill(PassiveIs(c.passive))(m))
      && (c.aoe.Some? ==> SomeSkill(AoeIs(c.aoe))(m))
  {
    var sk := m.species.skills[k];
    var q := CooltimeQueryOf(ParseBounds(c.cooltimeText));
    var h := ParseBounds(c.hitsText);
    if Truthy(h.max) { assert HitsAtMost(h.max.value)(sk); }
    if Truthy(h.min) { assert HitsAtLeast(h.min.value)(sk); }
    if c.passive.Some? { assert PassiveIs(c.passive)(sk); }
    if c.aoe.Some? { assert AoeIs(c.aoe)(sk); }
  }

  // ---------------------------------------------------------------- the filter

  /** The skill-effect filter: `effects_logic` selects any-skill mode. */
  function FilterSkills(ms: seq<MonsterInstance>, all: seq<Skill>, c: SkillCriteria): seq<MonsterInstance> {
    if c.effectsLogic == Some(true) then AnySkill(ms, c) else SameSkill(ms, all, c)
  }

  /** When the skill filter keeps a monster: in any-skill mode each criterion
      is met on its own; in same-skill mode either no skill of the table
      fails a criterion (the short-circuit) or one skill of the monster, from
      the table, meets them all at once. */
  predicate SkillFilterKeeps(all: seq<Skill>, c: SkillCriteria, m: MonsterInstance) {
    if c.effectsLogic == Some(true) then EachCriterionMet(c, m)
    else
      || (forall i :: 0 <= i < |all| ==> SkillMatches(c, all[i]))
      || exists i :: 0 <= i < |m.species.skills| && m.species.skills[i] in all && SkillMatches(c, m.species.skills[i])
  }

  /** The skill filter keeps a monster of the input iff it meets the
      criteria in the selected mode. */
  lemma FilterSkillsSpec(ms: seq<MonsterInstance>, all: seq<Skill>, c: SkillCriteria, m: MonsterInstance)
    ensures m in FilterSkills(ms, all, c) <==> m in ms && SkillFilterKeeps(all, c, m)
  {
    if c.effectsLogic == Some(true) {
      AnySkillSpec(ms, c, m);
    } else {
      SameSkillSpec(ms, all, c, m);
    }
  }

  /** Same-skill mode, short-circuit included. */
  lemma SameSkillSpec(ms: seq<MonsterInstance>, all: seq<Skill>, c: SkillCriteria, m: MonsterInstance)
    ensures m in SameSkill(ms, all, c) <==>
      && m in ms
      && ((forall i :: 0 <= i < |all| ==> SkillMatches(c, all[i]))
          || exists i :: 0 <= i < |m.species.skills| && m.species.skills[i] in all && SkillMatches(c, m.species.skills[i]))
  {
    SameSkillLength(all, c);
    forall i | 0 <= i < |m.species.skills|
      ensures m.species.skills[i] in MatchingSkills(all, c)
              <==> m.species.skills[i] in all && SkillMatches(c, m.species.skills[i])
    {
      MatchingSkillsSpec(all, c, m.species.skills[i]);
    }
  }

  /** No criteria at all: both modes return the input unchanged. */
  predicate NoSkillCriteria(c: SkillCriteria) {
    && c.effects == [] && c.scaling == []
    && ParseBounds(c.cooltimeText) == Bounds(None, None)
    && ParseBounds(c.hitsText) == Bounds(None, None)
    && c.passive.None? && c.aoe.None?
  }

  lemma FilterSkillsIdentity(ms: seq<MonsterInstance>, all: seq<Skill>, c: SkillCriteria)
    requires NoSkillCriteria(c)
    ensures FilterSkills(ms, all, c) == ms
  {
    if c.effectsLogic != Some(true) {
      SameSkillShortCircuit(ms, all, c);
    }
  }

  /** The listing's example of the two modes disagreeing: one skill with
      effect 1, another with effect 2, both requested. */
  function ExampleSkills(): seq<Skill> {
    [Skill(1, [1], [], None, 1, false, false), Skill(2, [2], [], None, 1, false, false)]
  }

  function ExampleMonster(): MonsterInstance {
    var sp := Species(7, "x", Fire, false, ExampleSkills(), None, None, None, None, None, false, AwakenCost(0, 0, 0, 0, 0, 0));
    MonsterInstance(1, 1, sp, 1, 1, false, None)
  }

  function ExampleCriteria(logic: Option<bool>): SkillCriteria {
    SkillCriteria([1, 2], [], "", "", None, None, logic)
  }

  lemma EmptyTextBounds()
    ensures ParseBounds("") == Bounds(None, None)
  {
    assert Split("", ',') == [""];
  }

  /** Any-skill mode keeps the example monster ... */
  lemma ExampleAnyKeeps()
    ensures FilterSkills([ExampleMonster()], ExampleSkills(), ExampleCriteria(Some(true))) == [ExampleMonster()]
  {
    var m := ExampleMonster();
    var c := ExampleCriteria(Some(true));
    EmptyTextBounds();
    assert SomeSkill(HasEffect(1))(m) by { assert HasEffect(1)(m.species.skills[0]); }
    assert SomeSkill(HasEffect(2))(m) by { assert HasEffect(2)(m.species.skills[1]); }
    AnySkillSpec([m], c, m);
    var r := AnySkill([m], c);
    assert m in r && |r| <= 1;
    assert r == [m];
  }

  /** ... while same-skill mode drops it, no one skill having both effects. */
  lemma ExampleSameDrops()
    ensures FilterSkills([ExampleMonster()], ExampleSkills(), ExampleCriteria(None)) == []
  {
    var m := ExampleMonster();
    ExampleMatchesNone();
    assert !HasSkillIn([])(m);
    FilterKeepsNone([m], HasSkillIn([]));
  }

  lemma ExampleMatchesNone()
    ensures MatchingSkills(ExampleSkills(), ExampleCriteria(None)) == []
  {
    var all := ExampleSkills();
    var c := ExampleCriteria(None);
    assert !SkillMatches(c, all[0]) by { assert c.effects[1] !in all[0].effects; }
    assert !SkillMatches(c, all[1]) by { assert c.effects[0] !in all[1].effects; }
    var matching := MatchingSkills(all, c);
    if matching != [] {
      MatchingSkillsSpec(all, c, matching[0]);
      assert false;
    }
  }
}
