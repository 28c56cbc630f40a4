/** The records the core reads: snapshots of monster, rune, artifact and craft
    rows. Categorical columns (stats, rune sets, qualities, effects, element and
    archetype slots) are integer codes; their display labels are not modelled.
    Owners are summoner ids. Nullable columns are `Option`s. */
module Models {
  import opened Optional

  /** The monster elements: the five normal ones, which have awakening
      essences and profile boxes of their own, and `Pure`, which has neither. */
  datatype Element = Fire | Water | Wind | Light | Dark | Pure {
    predicate Normal() { this != Pure }
  }

  /** A rune instance. `substats` is the Postgres array column. */
  datatype Rune = Rune(
    owner: nat,
    stars: int,
    slot: int,
    runeSet: int,
    quality: Option<int>,
    originalQuality: Option<int>,
    mainStat: int,
    innateStat: Option<int>,
    substats: seq<int>,
    ancient: bool,
    value: int,
    assignedTo: Option<nat>)

  /** The kinds of rune craft the core names; the remaining kinds of the
      craft enumeration are carried by their code. */
  datatype CraftKind = Grindstone | EnchantGem | AncientGrindstone | AncientGem | OtherCraft(code: int)

  /** A stack of rune crafts (grindstones or gems) of one kind, set, stat and quality. */
  datatype RuneCraft = RuneCraft(
    owner: nat,
    kind: CraftKind,
    runeSet: Option<int>,
    stat: int,
    quality: int,
    quantity: int,
    value: int)

  /** An artifact instance; its slot is an element or an archetype. */
  datatype Artifact = Artifact(
    owner: nat,
    element: Option<int>,
    archetype: Option<int>,
    mainStat: int,
    quality: int,
    originalQuality: int,
    effects: seq<int>,
    assignedTo: Option<nat>)

  /** A stack of artifact crafts of one effect, quality and slot. */
  datatype ArtifactCraft = ArtifactCraft(
    owner: nat,
    element: Option<int>,
    archetype: Option<int>,
    effect: int,
    quality: int,
    quantity: int)

  /** A skill of a monster species. */
  datatype Skill = Skill(
    id: nat,
    effects: seq<int>,
    scalingStats: seq<int>,
    cooltime: Option<int>,
    hits: int,
    passive: bool,
    aoe: bool)

  /** Awakening costs of a species, per essence tier. */
  datatype AwakenCost = AwakenCost(
    magicHigh: int, magicMid: int, magicLow: int,
    eleHigh: int, eleMid: int, eleLow: int)

  /** A monster species, with the names of its awakening relatives (the
      name filter searches them) and the ids of those relatives (fusion and
      awakening follow them). */
  datatype Species = Species(
    id: nat,
    name: string,
    element: Element,
    fusionFood: bool,
    skills: seq<Skill>,
    awakensFrom: Option<nat>,
    awakensTo: Option<nat>,
    awakensFromName: Option<string>,
    awakensFromFromName: Option<string>,
    awakensToName: Option<string>,
    isAwakened: bool,
    awakenCost: AwakenCost)

  /** The default rune build of a monster, with its precomputed active sets. */
  datatype RuneBuild = RuneBuild(activeRuneSets: seq<int>)

  /** A monster owned by a summoner. */
  datatype MonsterInstance = MonsterInstance(
    id: nat,
    owner: nat,
    species: Species,
    stars: int,
    level: int,
    ignoreForFusion: bool,
    defaultBuild: Option<RuneBuild>)
}
