/** The fusion-progress page: for each fusion recipe, whether the summoner
    already owns the product, and for each ingredient whether the
    summoner's best copy of it is acquired, evolved, leveled and awakened. */
module Fusion {
  import opened Optional
  import opened Seqs
  import opened Models

  /** A fusion recipe: the product species (and the species it awakens
      to), the star grade the ingredients must reach, and the ingredient
      species. */
  datatype Recipe = Recipe(
    product: nat,
    productAwakensTo: Option<nat>,
    stars: int,
    cost: int,
    ingredients: seq<Species>)

  /** The four requirements of one ingredient and their conjunction. */
  datatype IngredientProgress = IngredientProgress(
    acquired: bool,
    evolved: bool,
    leveled: bool,
    awakened: bool,
    complete: bool)

  datatype FusionProgress = FusionProgress(
    acquired: bool,
    stars: int,
    level: int,
    cost: int,
    ingredients: seq<IngredientProgress>,
    ready: bool)

  /** The level every ingredient must reach. */
  function RequiredLevel(stars: int): int {
    10 + stars * 5
  }

  /** A copy of the ingredient: the ingredient species itself or the
      species it awakens from. */
  function IsCopyOf(summoner: nat, ing: Species): MonsterInstance -> bool {
    (m: MonsterInstance) => m.owner == summoner && (m.species.id == ing.id || Some(m.species.id) == ing.awakensFrom)
  }

  function Owned(monsters: seq<MonsterInstance>, summoner: nat, ing: Species): seq<MonsterInstance> {
    Filter(monsters, IsCopyOf(summoner, ing))
  }

  /** `a` sorts no later than `b` under the order by stars, then level,
      then awakened first, all descending. */
  predicate RanksAtLeast(a: MonsterInstance, b: MonsterInstance) {
    || a.stars > b.stars
    || (a.stars == b.stars && a.level > b.level)
    || (a.stars == b.stars && a.level == b.level && (a.species.isAwakened || !b.species.isAwakened))
  }

  /** The first copy in that order. */
  function Best(xs: seq<MonsterInstance>): (b: MonsterInstance)
    requires xs != []
    ensures b in xs
    ensures forall x :: x in xs ==> RanksAtLeast(b, x)
  {
    if |xs| == 1 then xs[0]
    else
      var rest := Best(xs[1..]);
      assert forall x :: x in xs ==> x == xs[0] || x in xs[1..];
      if RanksAtLeast(xs[0], rest) then xs[0] else rest
  }

  /** One ingredient's progress, judged on the best copy alone. */
  function IngredientProgressOf(owned: seq<MonsterInstance>, ing: Species, stars: int, level: int): IngredientProgress {
    if owned == [] then IngredientProgress(false, false, false, false, false)
    else
      var best := Best(owned);
      var evolved := best.stars >= stars;
      var leveled := best.level >= level;
      var awakened := best.species.id == ing.id;
      IngredientProgress(true, evolved, leveled, awakened, evolved && leveled && awakened)
  }

  /** Complete means acquired, evolved, leveled and awakened; acquired means
      some copy is owned. */
  lemma IngredientFlags(owned: seq<MonsterInstance>, ing: Species, stars: int, level: int)
    ensures var p := IngredientProgressOf(owned, ing, stars, level);
      && (p.complete <==> p.acquired && p.evolved && p.leveled && p.awakened)
      && (p.acquired <==> owned != [])
  {
  }

  /** A complete ingredient is backed by an owned copy of the ingredient
      species itself at the required stars and level; an owned copy above
      every other in that order is what decides. */
  lemma CompleteIsWitnessed(monsters: seq<MonsterInstance>, summoner: nat, ing: Species, stars: int, level: int)
    requires IngredientProgressOf(Owned(monsters, summoner, ing), ing, stars, level).complete
    ensures exists m :: m in monsters && m.owner == summoner && m.species.id == ing.id && m.stars >= stars && m.level >= level
  {
    var best := Best(Owned(monsters, summoner, ing));
    assert best in monsters;
  }

  /** The summoner's only copy decides alone: it completes the ingredient
      iff it is the awakened form at the required stars and level. */
  lemma SingleCopy(m: MonsterInstance, ing: Species, stars: int, level: int)
    ensures IngredientProgressOf([m], ing, stars, level).complete <==>
      m.species.id == ing.id && m.stars >= stars && m.level >= level
  {
  }

  /** Only the best copy is judged: an unawakened copy with more stars hides
      an awakened copy that meets every requirement. */
  lemma BestCopyHidesOthers()
    ensures var unawakened := Species(1, "a", Fire, false, [], None, Some(2), None, None, None, false, AwakenCost(0, 0, 0, 0, 0, 0));
            var ing := Species(2, "b", Fire, false, [], Some(1), None, None, None, None, true, AwakenCost(0, 0, 0, 0, 0, 0));
            var high := MonsterInstance(10, 7, unawakened, 6, 40, false, None);
            var ready := MonsterInstance(11, 7, ing, 5, 35, false, None);
      && !IngredientProgressOf([high, ready], ing, 5, RequiredLevel(5)).complete
      && IngredientProgressOf([ready], ing, 5, RequiredLevel(5)).complete
  {
  }

  /** The summoner's monster is the product, awakened or not. */
  predicate IsProductOf(m: MonsterInstance, summoner: nat, recipe: Recipe) {
    m.owner == summoner && (m.species.id == recipe.product || Some(m.species.id) == recipe.productAwakensTo)
  }

  /** `for i in ingredients: if not i['complete']: fusion_ready = False`. */
  method ReadyOf(ings: seq<IngredientProgress>) returns (ready: bool)
    ensures ready <==> forall i :: 0 <= i < |ings| ==> ings[i].complete
  {
    ready := true;
    var k := 0;
    while k < |ings|
      invariant 0 <= k <= |ings|
      invariant ready <==> forall i :: 0 <= i < k ==> ings[i].complete
    {
      if !ings[k].complete {
        ready := false;
      }
      k := k + 1;
    }
  }

  /** One recipe's progress for the summoner. */
  method EvaluateFusion(monsters: seq<MonsterInstance>, summoner: nat, recipe: Recipe) returns (p: FusionProgress)
    ensures p.stars == recipe.stars
    ensures p.level == 10 + 5 * recipe.stars
    ensures p.cost == recipe.cost
    ensures p.acquired <==> exists m :: m in monsters && IsProductOf(m, summoner, recipe)
    ensures |p.ingredients| == |recipe.ingredients|
    ensures forall i :: 0 <= i < |p.ingredients| ==>
      p.ingredients[i] == IngredientProgressOf(Owned(monsters, summoner, recipe.ingredients[i]), recipe.ingredients[i], recipe.stars, p.level)
    ensures p.ready <==> forall i :: 0 <= i < |p.ingredients| ==> p.ingredients[i].complete
  {
    var level := RequiredLevel(recipe.stars);
    var acquired := exists m :: m in monsters && IsProductOf(m, summoner, recipe);
    var ings: seq<IngredientProgress> := [];
    var k := 0;
    while k < |recipe.ingredients|
      invariant 0 <= k <= |recipe.ingredients|
      invariant |ings| == k
      invariant forall i :: 0 <= i < k ==>
        ings[i] == IngredientProgressOf(Owned(monsters, summoner, recipe.ingredients[i]), recipe.ingredients[i], recipe.stars, level)
    {
      var ing := recipe.ingredients[k];
      ings := ings + [IngredientProgressOf(Owned(monsters, summoner, ing), ing, recipe.stars, level)];
      k := k + 1;
    }
    var ready := ReadyOf(ings);
    p := FusionProgress(acquired, recipe.stars, level, recipe.cost, ings, ready);
  }

  /** A recipe without ingredients is ready. */
  method NoIngredientsReady(monsters: seq<MonsterInstance>, summoner: nat, recipe: Recipe) returns (p: FusionProgress)
    requires recipe.ingredients == []
    ensures p.ready && p.ingredients == []
  {
    p := EvaluateFusion(monsters, summoner, recipe);
  }
}
