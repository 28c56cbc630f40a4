/** The monster listing's own filter methods: the name search over a
    monster's awakening family, the fusion-food toggle, the active-rune-set
    requirement on the default build, and the skill-effect filter, combined
    into one listing query. */
module MonsterFilters {
  import opened Optional
  import opened Seqs
  import opened Parsing
  import opened Models
  import opened SkillFilter

  // ---------------------------------------------------------------- name

  /** An optional related name contains the search text. */
  predicate NameHas(name: Option<string>, v: string) {
    name.Some? && IContains(name.value, v)
  }

  /** The species' own name, the one it awakens from, the one that awakens
      from, and the one it awakens to. */
  predicate FamilyNameHas(sp: Species, v: string) {
    || IContains(sp.name, v)
    || NameHas(sp.awakensFromName, v)
    || NameHas(sp.awakensFromFromName, v)
    || NameHas(sp.awakensToName, v)
  }

  function NameHit(v: string): MonsterInstance -> bool {
    (m: MonsterInstance) => FamilyNameHas(m.species, v)
  }

  /** The name search; an empty text is no search. */
  function ByName(ms: seq<MonsterInstance>, v: string): (r: seq<MonsterInstance>)
    ensures v == "" ==> r == ms
    ensures |r| <= |ms|
  {
    if v == "" then ms else Filter(ms, NameHit(v))
  }

  /** A monster is kept iff its species or one of its awakening relatives
      has a name containing the text, ignoring case. */
  lemma ByNameSpec(ms: seq<MonsterInstance>, v: string, m: MonsterInstance)
    requires v != ""
    ensures m in ByName(ms, v) <==> m in ms && FamilyNameHas(m.species, v)
  {
  }

  /** Searching for a species' exact name, in any letter case, finds it. */
  lemma ByNameFindsOwnName(ms: seq<MonsterInstance>, v: string, m: MonsterInstance)
    requires m in ms && Fold(m.species.name) == Fold(v)
    ensures m in ByName(ms, v)
  {
    IContainsCase(m.species.name, v);
  }

  /** Searching for the unawakened name also finds the awakened monster. */
  lemma ByNameFindsAwakened(ms: seq<MonsterInstance>, v: string, m: MonsterInstance)
    requires m in ms && m.species.awakensFromName == Some(v)
    ensures m in ByName(ms, v)
  {
    IContainsCase(v, v);
  }

  // ---------------------------------------------------------------- fusion food

  function IsFusionFood(m: MonsterInstance): bool {
    m.species.fusionFood && !m.ignoreForFusion
  }

  function NotFusionFood(m: MonsterInstance): bool {
    !m.species.fusionFood || m.ignoreForFusion
  }

  /** The fusion-food toggle: `true` keeps fodder species not marked to be
      ignored, `false` keeps the rest; no value, no filtering. */
  function ByFusionFood(ms: seq<MonsterInstance>, v: Option<bool>): (r: seq<MonsterInstance>)
    ensures v.None? ==> r == ms
    ensures v == Some(true) ==> forall m :: m in r <==> m in ms && m.species.fusionFood && !m.ignoreForFusion
    ensures v == Some(false) ==> forall m :: m in r <==> m in ms && (!m.species.fusionFood || m.ignoreForFusion)
  {
    match v
    case None => ms
    case Some(true) => Filter(ms, IsFusionFood)
    case Some(false) => Filter(ms, NotFusionFood)
  }

  /** The two settings of the toggle split the listing. */
  lemma FusionFoodPartition(ms: seq<MonsterInstance>)
    ensures multiset(ByFusionFood(ms, Some(true))) + multiset(ByFusionFood(ms, Some(false))) == multiset(ms)
    ensures forall m :: !(m in ByFusionFood(ms, Some(true)) && m in ByFusionFood(ms, Some(false)))
  {
    FilterPartition(ms, IsFusionFood, NotFusionFood);
  }

  // ---------------------------------------------------------------- active sets

  /** The default build is present and every requested set is active on it. */
  function HasActiveSets(sets: seq<int>): MonsterInstance -> bool {
    (m: MonsterInstance) => m.defaultBuild.Some? && ContainsAll(m.defaultBuild.value.activeRuneSets, sets)
  }

  /** The active-rune-set filter; an empty request is no filtering. */
  function ByActiveSets(ms: seq<MonsterInstance>, sets: seq<int>): (r: seq<MonsterInstance>)
    ensures sets == [] ==> r == ms
    ensures sets != [] ==> forall m: MonsterInstance :: m.defaultBuild.None? ==> m !in r
  {
    if sets == [] then ms else Filter(ms, HasActiveSets(sets))
  }

  /** With a request, a monster is kept iff its default build has every
      requested set active. */
  lemma ByActiveSetsSpec(ms: seq<MonsterInstance>, sets: seq<int>, m: MonsterInstance)
    requires sets != []
    ensures m in ByActiveSets(ms, sets) <==>
      m in ms && m.defaultBuild.Some? && forall i :: 0 <= i < |sets| ==> sets[i] in m.defaultBuild.value.activeRuneSets
  {
  }

  /** Requesting more sets never lets more monsters through. */
  lemma ByActiveSetsAntitone(ms: seq<MonsterInstance>, few: seq<int>, more: seq<int>, m: MonsterInstance)
    requires few != [] && ContainsAll(more, few)
    requires m in ByActiveSets(ms, more)
    ensures m in ByActiveSets(ms, few)
  {
    assert few[0] in more;
    assert m in ms && HasActiveSets(more)(m);
    var active := m.defaultBuild.value.activeRuneSets;
    forall i | 0 <= i < |few| ensures few[i] in active {
      var j :| 0 <= j < |more| && more[j] == few[i];
    }
  }

  // ---------------------------------------------------------------- the listing

  /** The monster listing's own filter fields. */
  datatype MonsterQuery = MonsterQuery(
    name: string,
    fusionFood: Option<bool>,
    activeSets: seq<int>,
    skills: SkillCriteria)

  /** Every filter of the listing, one after the other; `all` is the whole
      skill table the same-skill mode consults. */
  function ApplyMonsterQuery(ms: seq<MonsterInstance>, all: seq<Skill>, q: MonsterQuery): seq<MonsterInstance> {
    ByActiveSets(ByFusionFood(FilterSkills(ByName(ms, q.name), all, q.skills), q.fusionFood), q.activeSets)
  }

  /** The listing keeps a monster iff it is in the input and passes every
      filter of the form on its own: the name search when there is text, the
      fusion-food toggle when it is set, the active-set request when it is
      non-empty, and the skill filter in its selected mode. */
  lemma ApplyMonsterQuerySpec(ms: seq<MonsterInstance>, all: seq<Skill>, q: MonsterQuery, m: MonsterInstance)
    ensures m in ApplyMonsterQuery(ms, all, q) <==>
      && m in ms
      && (q.name != "" ==> FamilyNameHas(m.species, q.name))
      && (q.fusionFood == Some(true) ==> m.species.fusionFood && !m.ignoreForFusion)
      && (q.fusionFood == Some(false) ==> !m.species.fusionFood || m.ignoreForFusion)
      && (q.activeSets != [] ==>
            m.defaultBuild.Some? && forall i :: 0 <= i < |q.activeSets| ==> q.activeSets[i] in m.defaultBuild.value.activeRuneSets)
      && SkillFilterKeeps(all, q.skills, m)
  {
    var n := ByName(ms, q.name);
    if q.name != "" {
      ByNameSpec(ms, q.name, m);
    }
    var s := FilterSkills(n, all, q.skills);
    FilterSkillsSpec(n, all, q.skills, m);
    var f := ByFusionFood(s, q.fusionFood);
    if q.activeSets != [] {
      ByActiveSetsSpec(f, q.activeSets, m);
    }
  }

  /** An empty form lists every monster. */
  lemma EmptyQueryIdentity(ms: seq<MonsterInstance>, all: seq<Skill>, q: MonsterQuery)
    requires q.name == "" && q.fusionFood.None? && q.activeSets == [] && NoSkillCriteria(q.skills)
    ensures ApplyMonsterQuery(ms, all, q) == ms
  {
    FilterSkillsIdentity(ms, all, q.skills);
  }

  /** The listing only ever narrows: every monster it shows was in the input. */
  lemma QueryNarrows(ms: seq<MonsterInstance>, all: seq<Skill>, q: MonsterQuery, m: MonsterInstance)
    requires m in ApplyMonsterQuery(ms, all, q)
    ensures m in ms
  {
    var n := ByName(ms, q.name);
    var s := FilterSkills(n, all, q.skills);
    var f := ByFusionFood(s, q.fusionFood);
    assert m in f;
    assert m in s;
    SkillFilterNarrows(n, all, q.skills, m);
  }

  lemma SkillFilterNarrows(ms: seq<MonsterInstance>, all: seq<Skill>, c: SkillCriteria, m: MonsterInstance)
    requires m in FilterSkills(ms, all, c)
    ensures m in ms
  {
    if c.effectsLogic == Some(true) {
      AnySkillSpec(ms, c, m);
    }
  }
}
