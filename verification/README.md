# Swarfarm herders core in Dafny

This project models the decision logic of the herders app of Swarfarm, a
Summoners War collection tracker. Three parts are modelled:

- **The listing filters.** These are the filter methods the monster, rune
  and artifact listings add to their generic field filters:
  - the name search over a monster's awakening family;
  - the fusion-food toggle;
  - the "all these rune sets active on the default build" requirement;
  - the skill-effect filter, with its cooldown and hit-count ranges and
    its two modes ("any skill" and "same skill");
  - substats (all or any, optionally reversed) and assigned / unassigned;
  - grindable / enchantable, judged against the summoner's own craft
    stock;
  - the artifact slot split into element and archetype codes, and
    artifact effects.
- **The two-owner comparison reports** (runes, rune crafts, artifacts,
  artifact crafts). Each report is a nested table pre-seeded with a zero
  `{summoner, follower}` leaf for every category value, filled in one pass
  over both owners' records, and then scored: every leaf gets its winner.
- **The monster progression rules.** These are power-up / evolution
  validation and its outcome, the fusion-progress evaluation, the essence
  subtraction of awakening, and the grade, level and element boxes of the
  profile page.

A queryset is a `seq` of immutable records, and a `filter` / `exclude` is
`Seqs.Filter` by a predicate. Category display labels are integer codes,
and the sets of declared codes ("catalogs") are parameters. A nested report
is a tagged tree `Reports.Node` (leaf or group of keyed entries), and
`dict[key]` is `Reports.Find` / `Reports.Lookup`.

Every filter is paired with a reference predicate that states which
records it keeps (`…Spec` lemmas, stated as an if-and-only-if). The
pairwise settings of a toggle are proved to split the input (multiset
partition lemmas). Every report leaf is proved to hold the counts (or
quantity sums) of the records in that category, checked against an
independent declarative count, and to carry the majority winner.

The skill filter reads two source behaviours exactly:

- Cooldown and hit ranges are parsed with Python's `str.split(',')` and
  `int()`. Any failure drops both bounds.
- Cooldown bounds apply only when positive, and a zero bound adds "or the
  cooldown is null". An empty range combined with that null rule is the
  null test alone, so `"0,0"` keeps exactly the skills without a cooldown.

Hit bounds use Python truthiness, so a zero hit bound is no bound.

Two behaviours of the code worth noting:

- The same-skill short-circuit compares the number of matching skills with
  the size of the whole skill table. It therefore also fires when criteria
  are given but every skill in the table meets them, not only when no
  criterion is given (`SkillFilter.SameSkillShortCircuit`).
- As written, the grindable and enchantable filters are not a pure toggle
  when the summoner has no usable craft: both settings then keep every
  rune. This is modelled as written (`RuneFilters.ByCraftAsWritten`) and
  logged under Findings. The composed rune listing
  (`RuneFilters.ApplyRuneQuery`) uses the corrected filter, which agrees
  with the code whenever the summoner holds a usable craft of each kind
  (`RuneFilters.ApplyRuneQueryAsWritten`).

## Model

| member | source | states |
|---|---|---|
| Seqs.Filter | herders/filters.py:54-59 | a filtered queryset holds exactly the records of the input the condition accepts, and is never longer (how often each record occurs is fixed by `Seqs.FilterPartition`) |
| Seqs.FilterPartition | herders/filters.py:234-242 | filtering by a condition and by its negation splits the input: the two results add up to the input as multisets |
| Seqs.FilterIdempotent | herders/filters.py:54-59 | applying the same filter a second time changes nothing |
| Seqs.FilterCommute | herders/filters.py:103-136 | successive filters can be applied in either order |
| Parsing.Split | herders/filters.py:88 | `str.split(',')` yields one more piece than there are commas, the pieces hold no comma, and joining them with commas restores the text |
| Parsing.ParseIntNeedsDigit | herders/filters.py:89-90 | `int()` succeeds only on text holding a digit |
| Parsing.ParseShow | herders/filters.py:89-90 | `int(str(n)) == n` for every integer, negative ones included |
| Parsing.ParseShowPadded | herders/filters.py:89-90 | whitespace around the number is ignored by `int()` |
| Parsing.Occurs | herders/filters.py:55-58 | the substring search succeeds iff the pattern occurs at some position of the text |
| Parsing.IContainsCase | herders/filters.py:55 | `icontains` finds a name searched for with itself, in any letter case |
| SkillFilter.ParseBounds | herders/filters.py:87-101 | a range text gives both bounds or neither, and a text without exactly one comma gives neither |
| SkillFilter.ParseBoundsShow | herders/filters.py:87-93 | the pair `"lo,hi"` of any two integers is read back as exactly those bounds |
| SkillFilter.CooltimeQueryOf | herders/filters.py:150-159 | an upper or lower cooldown bound is applied iff it is present and positive, and "or null" is added iff a bound is zero |
| SkillFilter.CooltimeFailOpen | herders/filters.py:87-93 | a cooldown text that is not two integers around one comma imposes no cooldown condition at all |
| SkillFilter.CooltimeZeroBound | herders/filters.py:119-120 | with a zero bound the cooldown condition is applied and admits every skill without a cooldown |
| SkillFilter.CooltimeZeroZero | herders/filters.py:150-162 | `"0,0"` keeps exactly the skills whose cooldown is null |
| SkillFilter.CooltimePositive | herders/filters.py:152-156 | two positive bounds are an inclusive range that rejects null cooldowns |
| SkillFilter.CooltimeNegativeIgnored | herders/filters.py:152-156 | a negative lower bound is dropped and the positive upper bound still applies |
| SkillFilter.MatchingSkillsSpec | herders/filters.py:141-179 | the chain of skill-table filters keeps exactly the skills meeting every criterion at once |
| SkillFilter.SameSkillLength | herders/filters.py:181-182 | the skill count is unchanged by the chain iff every skill of the table meets every criterion |
| SkillFilter.SameSkillShortCircuit | herders/filters.py:181-183 | when every skill of the table meets the criteria, same-skill mode returns the input unchanged |
| SkillFilter.SameSkillKeeps | herders/filters.py:135-185 | otherwise same-skill mode keeps a monster iff one of its own skills meets every criterion at once |
| SkillFilter.EachEffect | herders/filters.py:144-145 | one `filter(effect=…)` per requested effect keeps exactly the skills carrying all of them |
| SkillFilter.EachScaling | herders/filters.py:147-148 | one `filter(scaling_stats=…)` per requested stat keeps exactly the skills scaling on all of them |
| SkillFilter.EachMonsterEffect | herders/filters.py:105-106 | any-skill mode: each requested effect must be on some skill of the monster, possibly a different one each |
| SkillFilter.EachMonsterScaling | herders/filters.py:108-109 | any-skill mode: each requested scaling stat must be on some skill of the monster |
| SkillFilter.AnySkillSpec | herders/filters.py:103-136 | any-skill mode keeps a monster iff each criterion on its own is met by some skill; with "or null" a monster without skills meets the cooldown criterion |
| SkillFilter.SameSkillWithinAny | herders/filters.py:103-185 | a monster with skills that same-skill mode keeps is also kept by any-skill mode |
| SkillFilter.FilterSkillsSpec | herders/filters.py:81-185 | the skill filter keeps a monster iff, in any-skill mode, each criterion is met by some skill of it, and in same-skill mode either every skill of the table meets all criteria or one skill of the monster meets them all at once |
| SkillFilter.SameSkillSpec | herders/filters.py:139-185 | same-skill mode keeps a monster iff every skill of the table meets all criteria (the short-circuit) or one skill of the monster, from the table, meets them all at once |
| SkillFilter.FilterSkillsIdentity | herders/filters.py:181-183 | with no criterion at all, both modes return the input unchanged |
| SkillFilter.ExampleAnyKeeps | herders/filters.py:103-136 | a monster with effect X on one skill and effect Y on another is kept by any-skill mode when X and Y are requested |
| SkillFilter.ExampleSameDrops | herders/filters.py:139-185 | the same monster is dropped by same-skill mode, since no single skill has both effects |
| MonsterFilters.ByNameSpec | herders/filters.py:52-59 | a monster is kept iff its own name, the name it awakens from, the one before that, or the name it awakens to contains the text, ignoring case |
| MonsterFilters.ByName | herders/filters.py:60-61 | an empty search text is no filtering, and the result is never longer than the input |
| MonsterFilters.ByNameFindsOwnName | herders/filters.py:55 | searching for a species' name in any letter case finds the monster |
| MonsterFilters.ByNameFindsAwakened | herders/filters.py:56 | searching for the unawakened name also finds the awakened monster |
| MonsterFilters.ByFusionFood | herders/filters.py:75-79 | `true` keeps fodder species not marked to be ignored, `false` keeps non-fodder or ignored ones, and no value keeps all |
| MonsterFilters.FusionFoodPartition | herders/filters.py:75-79 | the two settings of the fusion-food toggle split the listing and never share a monster |
| MonsterFilters.ByActiveSets | herders/filters.py:63-73 | an empty request keeps all; any request drops every monster without a default build |
| MonsterFilters.ByActiveSetsSpec | herders/filters.py:64-71 | with a request, a monster is kept iff it has a default build on which every requested set is active |
| MonsterFilters.ByActiveSetsAntitone | herders/filters.py:68 | requesting more sets never lets more monsters through |
| MonsterFilters.EmptyQueryIdentity | herders/filters.py:52-189 | an empty monster form lists every monster |
| MonsterFilters.ApplyMonsterQuerySpec | herders/filters.py:52-189 | a monster is listed iff it is in the input and passes each filter of the form on its own: the name search when text is given, the fusion-food toggle when set, the active-set request when non-empty, and the skill filter in its mode |
| MonsterFilters.QueryNarrows | herders/filters.py:52-189 | every monster the listing shows was in the input |
| MonsterFilters.SkillFilterNarrows | herders/filters.py:81-185 | both skill-filter modes only narrow the input |
| RuneFilters.BySubstats | herders/filters.py:232-244 | with no substat requested, the input is returned unchanged |
| RuneFilters.BySubstatsSpec | herders/filters.py:233-242 | default mode keeps exactly the runes carrying every requested stat; `substat_logic` keeps those carrying at least one |
| RuneFilters.SubstatsPartition | herders/filters.py:234-242 | for either logic the reversed result is the complement of the plain one, so the two split the input |
| RuneFilters.ContainsWithinOverlap | herders/filters.py:233-242 | containment keeps a subset of what overlap keeps |
| RuneFilters.ByAssigned | herders/filters.py:254-255 | a value keeps exactly the runes whose assignment matches it |
| RuneFilters.AssignedPartition | herders/filters.py:254-255 | assigned and unassigned split the listing |
| RuneFilters.Collect | herders/filters.py:281-285 | the craft table lists each usable (ancient-ness, set, stat) once, and lists exactly those |
| RuneFilters.CraftQuerySpec | herders/filters.py:287-291 | a rune fits the craft query iff the summoner holds at least one unit of a craft of its ancient-ness and set whose stat is neither its main nor its innate stat |
| RuneFilters.AsWrittenNoCraftsKeepsBoth | herders/filters.py:287-296 | as written, with no usable craft both "grindable" and "not grindable" list every rune, so the two settings do not split the listing |
| RuneFilters.ByCraft | herders/filters.py:257-259 | with no summoner (the rune-assignment dialog) or no value, the input is returned unchanged |
| RuneFilters.CraftPartition | herders/filters.py:293-296 | corrected filter: "grindable" and "not grindable" split the listing, usable crafts or not |
| RuneFilters.ByCraftSpec | herders/filters.py:257-338 | corrected filter: a rune is kept iff its eligibility for some usable craft equals the requested value |
| RuneFilters.CraftAgreesWithUsableStock | herders/filters.py:287-296 | where the summoner has some usable craft, the corrected filter equals the filter as the code writes it |
| RuneFilters.ApplyRuneQuery | herders/filters.py:228-338 | the rune listing only narrows: every listed rune was in the input |
| RuneFilters.ApplyRuneQuerySpec | herders/filters.py:228-338 | a rune is listed iff it meets the substat request (containment or overlap, negated when reversed), the assignment request, and the grindable and enchantable requests, each judged on its own |
| RuneFilters.ApplyRuneQueryAsWritten | herders/filters.py:257-338 | when the summoner holds a usable craft of each kind, the listing equals the composition with the grindable and enchantable filters as written |
| RuneFilters.EmptyRuneQueryIdentity | herders/filters.py:228-338 | an empty rune form lists every rune |
| ArtifactFilters.SplitSlots | herders/filters.py:364-373 | chosen codes are sorted into element codes and archetype codes, an element code is never taken as an archetype, and other codes are dropped |
| ArtifactFilters.BySlot | herders/filters.py:362-375 | no chosen slot is no filtering |
| ArtifactFilters.BySlotSpec | herders/filters.py:362-375 | an artifact is kept iff its element is a chosen element code or its archetype is a chosen archetype code |
| ArtifactFilters.AllElementsChosen | herders/filters.py:369-375 | choosing every element code keeps every artifact of an element slot |
| ArtifactFilters.ByEffects | herders/filters.py:380-386 | no effect requested is no filtering |
| ArtifactFilters.ByEffectsSpec | herders/filters.py:377-384 | default mode keeps artifacts carrying every requested effect; `effects_logic` keeps those carrying at least one |
| ArtifactFilters.EffectsAllWithinAny | herders/filters.py:381-384 | containment keeps a subset of what overlap keeps, and the two agree on a single requested effect |
| ArtifactFilters.ByArtifactAssigned | herders/filters.py:388-389 | a value keeps exactly the artifacts whose assignment matches it |
| ArtifactFilters.ArtifactAssignedPartition | herders/filters.py:388-389 | assigned and unassigned split the listing |
| Tallies.Decide | herders/views/compare.py:22-27 | the winner is the summoner iff summoner > follower, the follower iff summoner < follower, and a tie iff they are equal |
| Tallies.SideOf | herders/views/compare.py:97-100 | a record goes to the follower column iff its owner is the follower, and to the summoner column otherwise |
| Tallies.Seed | herders/views/compare.py:62-91 | a pre-seeded axis holds exactly the declared buckets, each at zero |
| Tallies.Bump | herders/views/compare.py:104-105 | one record adds its weight to its own side of each bucket it hits, once per occurrence, and nothing else changes |
| Tallies.Tabulate | herders/views/compare.py:103-114 | after the pass, every bucket holds, per side, its seed plus the reference total of the weights the records put there |
| Tallies.TabulateSum | herders/views/compare.py:103-114 | the pass adds to each side's column sum exactly the records' weights times their bucket counts |
| Tallies.UnhitBucket | herders/views/compare.py:62-91 | a bucket no record hits receives nothing from either side |
| Tallies.Axis | herders/views/compare.py:107-113 | on a one-bucket-per-record axis, each declared bucket holds per side the total weight of the records in that category |
| Tallies.AxisSum | herders/views/compare.py:102-113 | on a one-bucket-per-record axis, each side's column adds up to that side's total |
| Tallies.AxisUnhit | herders/views/compare.py:62-91 | a declared bucket no record falls into stays at zero on both sides |
| Tallies.AxisBucket | herders/views/compare.py:107-113 | a bucket holds, per side, the summed weight of that side's records in the bucket |
| Tallies.TotalSide | herders/views/compare.py:114 | a side's total is the sum over that side's records only |
| Tallies.TotalCounts | herders/views/compare.py:102 | a total of unit weights counts each side's records |
| Tallies.TableSum | herders/views/compare.py:104-105 | a many-buckets-per-record axis adds up, per side, to the sum of weight times bucket count |
| Reports.CodeKeysMember | herders/views/compare.py:62-75 | a code is a key of the seeded table iff it is a declared code |
| Reports.FindWinners | herders/views/compare.py:16-27 | the winner pass gives every leaf, at any depth, the winner of its own figures, and leaves keys, nesting and figures unchanged |
| Reports.Find | herders/views/compare.py:17-21 | a key is found in a group iff some entry carries it |
| Reports.FindAt | herders/views/compare.py:21 | the entry found is the first one carrying the key |
| Reports.WinnerAt | herders/views/compare.py:16-27 | wherever the unscored report has a leaf, the scored report has the same figures there and their majority winner |
| Reports.AxisLookup | herders/views/compare.py:62-91 | every declared bucket of a pre-seeded axis is reachable in the report and holds that axis' figures |
| CompareRunes.KeysInCatalog | herders/views/compare.py:105-113 | every category value of a rune in the catalog lands in a pre-seeded bucket |
| CompareRunes.TallySeeded | herders/views/compare.py:62-91 | whatever runes are read, every axis holds exactly its declared buckets, `None` included for quality and innate stat |
| CompareRunes.OwnedRunes | herders/views/compare.py:92-93 | the runes read are exactly those of the two owners, in query order |
| CompareRunes.Attribution | herders/views/compare.py:97-100 | the follower column holds exactly the follower's runes and the summoner column exactly the summoner's, so the two never mix |
| CompareRunes.RuneBuckets | herders/views/compare.py:107-113 | every bucket of every one-bucket axis counts that column's runes with that category value |
| CompareRunes.RuneCount | herders/views/compare.py:101-102 | `count` holds, per column, the number of runes credited to it |
| CompareRunes.RuneWorthSum | herders/views/compare.py:114 | `worth` holds, per column, the sum of its runes' values |
| CompareRunes.RuneBucketSums | herders/views/compare.py:102-113 | on the stars, sets, quality, original quality, slot, main stat and innate stat axes, a column's buckets add up to its `count` |
| CompareRunes.RuneSubstatSum | herders/views/compare.py:104-105 | a column's substat buckets add up to the total length of its runes' substat lists |
| CompareRunes.Compare | herders/views/compare.py:61-118 | the returned report has a winner on every leaf |
| CompareRunes.RuneLeaf | herders/views/compare.py:61-118 | under every one-bucket section (stars, sets, quality, original quality, slot, main stat, innate stat) and declared bucket the report holds both columns' counts of runes in that bucket and their majority winner |
| CompareRunes.RuneUnseenBucket | herders/views/compare.py:62-116 | a declared bucket of a one-bucket section that none of the two owners' runes falls into is reported as 0 against 0, a tie |
| CompareRunes.RuneSubstatLeaf | herders/views/compare.py:104-105 | under every declared stat the `substats` section holds, per column, how many times that stat occurs among the substats of the column's runes, and the majority winner of those figures |
| CompareRunes.RuneUnseenSubstat | herders/views/compare.py:62-116 | a declared stat that is a substat of none of the two owners' runes is reported as 0 against 0, a tie |
| CompareRunes.RuneTotalsLeaves | herders/views/compare.py:102-116 | the `count` and `worth` leaves hold the two columns' totals and their winner |
| CompareRuneCrafts.OwnedCrafts | herders/views/compare.py:165-166 | the stacks read are exactly the two owners' stacks of the requested craft kind |
| CompareRuneCrafts.CraftsOf | herders/views/compare.py:166-171 | a column holds only the requested kind: the follower's stacks, or the summoner's and no one else's |
| CompareRuneCrafts.CraftBuckets | herders/views/compare.py:175-177 | every bucket holds, per column, the total quantity of that column's stacks with that category value |
| CompareRuneCrafts.CraftTotals | herders/views/compare.py:174-178 | `count` adds quantities and `worth` adds value times quantity |
| CompareRuneCrafts.CraftBucketSums | herders/views/compare.py:173-177 | every axis of a column adds up to that column's `count` |
| CompareRuneCrafts.CraftLeaf | herders/views/compare.py:153-182 | every bucket leaf of the scored report holds both columns' quantities and their winner |
| CompareRuneCrafts.CraftTotalsLeaves | herders/views/compare.py:174-180 | the `count` and `worth` leaves hold the quantity and worth totals and their winner |
| CompareRuneCrafts.StacksExample | herders/views/compare.py:166-178 | two grindstone stacks of 3 and 7 count as 10, and the other owner's gem stack is not counted |
| CompareRuneCrafts.CompareCrafts | herders/views/compare.py:153-182 | the returned report has a winner on every leaf |
| CompareArtifacts.PreciseSlot | herders/views/compare.py:250 | an artifact's slot bucket is its archetype when it has one, otherwise its element |
| CompareArtifacts.SlotKeysMember | herders/views/compare.py:229 | the slot axis is seeded with every archetype and every element slot, and nothing else |
| CompareArtifacts.ArtifactsOf | herders/views/compare.py:238-242 | a column holds exactly the artifacts attributed to it |
| CompareArtifacts.ArtifactBuckets | herders/views/compare.py:248-251 | every bucket of a one-bucket axis counts that column's artifacts with that category value |
| CompareArtifacts.ArtifactCount | herders/views/compare.py:242-243 | `count` is the number of artifacts credited to the column |
| CompareArtifacts.ArtifactBucketSums | herders/views/compare.py:243-251 | each one-bucket axis of a column adds up to its `count` |
| CompareArtifacts.ArtifactEffectSum | herders/views/compare.py:245-246 | a column's substat buckets add up to the number of effects its artifacts carry |
| CompareArtifacts.ArtifactLeaf | herders/views/compare.py:223-255 | every bucket leaf of the quality, original quality, slot and main stat sections holds both columns' counts of artifacts in that bucket and their winner |
| CompareArtifacts.ArtifactEffectLeaf | herders/views/compare.py:245-246 | under every declared effect the `substats` section holds, per column, how many times that effect occurs among the column's artifacts, and the majority winner of those figures |
| CompareArtifacts.ArtifactUnseenEffect | herders/views/compare.py:223-253 | a declared effect that none of the two owners' artifacts carries is reported as 0 against 0, a tie |
| CompareArtifacts.ArtifactCountLeaf | herders/views/compare.py:243-253 | the `count` leaf holds both columns' artifact counts and their winner |
| CompareArtifacts.CompareArtifacts | herders/views/compare.py:223-255 | the returned report has a winner on every leaf |
| CompareArtifactCrafts.CraftSlot | herders/views/compare.py:307 | a stack's slot bucket is its archetype when it has one, otherwise its element |
| CompareArtifactCrafts.StacksOf | herders/views/compare.py:299-303 | a column holds exactly the stacks attributed to it |
| CompareArtifactCrafts.StackBuckets | herders/views/compare.py:305-307 | every bucket holds, per column, the total quantity of that column's stacks with that category value |
| CompareArtifactCrafts.StackCount | herders/views/compare.py:308 | `count` is the total quantity of the column's stacks |
| CompareArtifactCrafts.StackBucketSums | herders/views/compare.py:304-308 | each axis of a column adds up to its quantity-weighted `count` |
| CompareArtifactCrafts.StackLeaf | herders/views/compare.py:289-312 | every bucket leaf of the scored report holds both columns' quantities and their winner |
| CompareArtifactCrafts.StackCountLeaf | herders/views/compare.py:308-310 | the `count` leaf holds both columns' total quantities and their winner |
| CompareArtifactCrafts.CompareArtifactCrafts | herders/views/compare.py:289-312 | the returned report has a winner on every leaf |
| PowerUp.EvolveErrors | herders/views.py:318-334 | each evolution error is reported iff its rule is broken: six stars already, not at the level cap, fewer food monsters than stars, a food monster of other stars |
| PowerUp.AcceptedIff | herders/views.py:303-334 | a request is accepted iff the food is distinct, does not include the monster itself, and, for an evolution with the rules in force, every evolution rule holds |
| PowerUp.DuplicateFoodRejected | herders/views.py:303-305 | the same food monster chosen twice is an error, with the evolution rules ignored or not |
| PowerUp.SelfFeedingRejected | herders/views.py:307-310 | feeding the monster to itself is an error, with the evolution rules ignored or not |
| PowerUp.PowerUpMonster | herders/views.py:296-352 | the reported errors are those of the request, and with any error the summoner's monsters are unchanged |
| PowerUp.EvolutionOutcome | herders/views.py:339-352 | after an accepted request the monster has one more star and level 1 for an evolution (unchanged otherwise), every food monster is gone, and every other monster stays |
| PowerUp.RuledEvolutionCapped | herders/views.py:318-343 | an evolution with the rules in force never goes past six stars |
| PowerUp.Ids | herders/views.py:304 | food is compared by monster id |
| PowerUp.ReplaceBase | herders/views.py:342-344 | saving the evolved monster replaces the record with its id and leaves every other record as it was |
| Fusion.Best | herders/views.py:517-525 | the copy judged is an owned copy ranked at least as high as every other by stars, then level, then awakened first |
| Fusion.IngredientFlags | herders/views.py:523-534 | an ingredient is complete iff acquired, evolved, leveled and awakened, and acquired iff some copy is owned |
| Fusion.CompleteIsWitnessed | herders/views.py:517-528 | a complete ingredient is backed by an owned copy of the ingredient species itself at the required stars and level |
| Fusion.SingleCopy | herders/views.py:523-528 | a summoner's only copy completes the ingredient iff it is the awakened form at the required stars and level |
| Fusion.BestCopyHidesOthers | herders/views.py:520-528 | only the best copy is judged: an unawakened 6-star copy hides an awakened 5-star copy that meets every requirement |
| Fusion.ReadyOf | herders/views.py:547-550 | a fusion is ready iff every ingredient is complete |
| Fusion.EvaluateFusion | herders/views.py:506-561 | the required level is 10 + 5 × stars, acquired iff the summoner owns the product or its awakened form, the fusion's cost is passed through, each ingredient's progress is judged on its own copies, and ready iff all ingredients are complete |
| Fusion.NoIngredientsReady | herders/views.py:547-550 | a fusion without ingredients is ready |
| Awakening.WithEle | herders/views.py:407-441 | replacing one element's stock leaves magic and every other element's stock as it was |
| Awakening.Pay | herders/views.py:397-441 | paying removes the awakening cost from magic and, for a monster of one of the five normal elements, from that element's stock, tier by tier; every other element is unchanged |
| Awakening.AwakenMonster | herders/views.py:395-447 | the storage is charged iff `subtract_materials` is set, and the monster becomes its awakened species either way |
| Awakening.PayTakesCost | herders/views.py:397-441 | the whole storage drops by exactly the magic cost plus, for a normal element, the element cost, and other elements keep their stock |
| Awakening.PurePaysMagicOnly | herders/views.py:407-441 | a monster of an element outside the five branches (pure) pays its magic essences and nothing else |
| Awakening.PayCommutes | herders/views.py:397-441 | paying two awakenings in either order leaves the same storage |
| Boxes.LevelBox | herders/views.py:94-97 | a monster is in a level box iff it is in the queried monsters and its level lies in that box's bounds (above 30; 21-30; 11-20; at most 10) |
| Boxes.Band | herders/views.py:95-96 | `level__gt=lo` then `level__lte=hi` keeps exactly the monsters with a level in (lo, hi] |
| Boxes.LevelBoxesPartition | herders/views.py:94-97 | a monster is in a level box iff it is the summoner's and its level falls in that box's band |
| Boxes.LevelBoxesCount | herders/views.py:94-97 | the four level boxes together hold every monster of the summoner exactly once |
| Boxes.GradeBoxes | herders/views.py:84-91 | the i-th grade box holds the summoner's monsters of 6 − i stars |
| Boxes.GradeBoxesPlace | herders/views.py:86-91 | a monster of one to six stars is in the box of its stars and in no other, and a monster of other stars is in none |
| Boxes.ElementBoxesPartition | herders/views.py:98-104 | a monster is in an element box iff it is the summoner's and of the normal element that box shows |
| Boxes.PureUnboxed | herders/views.py:98-104 | a monster of an element without a box (pure) is in none of the five element boxes |

## Left out

- The generic field filters of the three filter sets (element, archetype, stars, level, quality, tags, …). They are plain `field=value` or range lookups with no logic of their own in herders/filters.py.
- Query ordering, `distinct()` and the ORM's join mechanics. A queryset is a sequence of distinct records, and the any-skill join is modelled by "some skill of the monster".
- SQL three-valued logic. A negated condition on a nullable column is modelled as the plain complement, and `~Q(innate_stat=s)` keeps a rune with no innate stat.
- The `order_by` of the profile boxes and of the reports' seeded keys. Boxes and report sections are compared by membership and keys, not by position.
- Category display labels. `get_*_display` is modelled as the integer code. Two codes sharing a label would share a bucket in the source and do not here.
- Records with category values outside the declared choices. The source then raises a key error; the comparison functions require catalog membership instead.
- `get_precise_slot_display`. It lives in herders/models.py, which is not part of this model; it is modelled as "archetype, else element".
- `max_level_from_stars`. It also lives in herders/models.py, and is a parameter `maxLevel` of the power-up model.
- PowerUp.PowerUpMonster: the `PermissionDenied` raised when a food monster belongs to someone else is not modelled. It happens after the evolved monster is saved, so the page can end half done; the model assumes food of the summoner.
- PowerUp.PowerUpMonster: the success messages, the redirect and the form-level validation are not modelled.
- Awakening to a species without an awakened form. `awakens_to` is an input of `Awakening.AwakenMonster`.
- `essences_missing`, which the fusion page calls. It lives in a module that is not part of this model.
- Fusion ties. Copies equal in stars, level and awakening are ordered by the database. `Fusion.Best` picks the first in input order, and `Fusion.CompleteIsWitnessed` states only what every choice guarantees.
- Python's `int()` on non-ASCII digits and whitespace. Only ASCII digits, signs, underscores between digits and ASCII whitespace are accepted.
- `icontains` beyond ASCII letters. Case folding covers `A`–`Z` only.
- Request handling: rendering, messages, authentication, the ownership and can-compare checks, `Http404` for an unknown sort method, and the `is_owner` test of the awakening page.
- RuneFilters.ApplyRuneQuery and RuneFilters.ApplyRuneQuerySpec: both apply the corrected grindable / enchantable filter, so for a summoner without any usable craft of a kind the listing shows no rune for "yes" where the code as written lists every rune; `RuneFilters.ByCraftAsWritten` keeps the written behaviour and the Findings table records the difference.
- Floating-point worth. Rune and craft values are integers.

## Findings

| source | as written | input that shows it | evidently intended | confidence | as-written member | corrected member |
|---|---|---|---|---|---|---|
| herders/filters.py:287-296 | the query (here and in the enchantable filter) is built as an OR starting from the empty `Q()`; with no usable craft it stays empty, and `filter(Q())` and `exclude(Q())` both keep every rune | a summoner holding no grindstone: "grindable = yes" and "grindable = no" both list every rune | with no usable craft no rune is grindable: "yes" lists nothing, "no" lists everything, and the two settings always split the listing | not executed | RuneFilters.AsWrittenNoCraftsKeepsBoth | RuneFilters.CraftPartition |
