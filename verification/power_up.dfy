/** Powering up or evolving a monster by feeding it other monsters of the
    same summoner: the validation rules, the evolution itself, and the
    removal of the food. */
module PowerUp {
  import opened Optional
  import opened Seqs
  import opened Models

  /** The validation failures the power-up page reports. */
  datatype PowerUpError =
    | FoodNotUnique     // the same monster chosen twice
    | BaseFoodSame      // the monster fed to itself
    | BaseStars         // already six stars
    | BaseLevel         // not at the maximum level of its stars
    | FoodQuantity      // fewer food monsters than stars
    | FoodStars         // a food monster of other stars

  /** The submitted form: the chosen food monsters (blank slots already
      dropped), whether this is an evolution, and whether the evolution
      rules are to be ignored. */
  datatype PowerUpRequest = PowerUpRequest(food: seq<MonsterInstance>, evolve: bool, ignoreErrors: bool)

  /** The outcome: the validation errors, and the summoner's monsters
      afterwards. */
  datatype PowerUpResult = PowerUpResult(errors: set<PowerUpError>, stable: seq<MonsterInstance>)

  function Ids(ms: seq<MonsterInstance>): (ids: seq<nat>)
    ensures |ids| == |ms| && forall i :: 0 <= i < |ms| ==> ids[i] == ms[i].id
  {
    if ms == [] then [] else [ms[0].id] + Ids(ms[1..])
  }

  /** The evolution rules, checked only for an evolution without
      `ignore_errors`; `maxLevel` gives the level cap of a star grade. */
  function EvolveErrors(base: MonsterInstance, food: seq<MonsterInstance>, maxLevel: int -> int): (errs: set<PowerUpError>)
    ensures BaseStars in errs <==> base.stars >= 6
    ensures BaseLevel in errs <==> base.level != maxLevel(base.stars)
    ensures FoodQuantity in errs <==> |food| < base.stars
    ensures FoodStars in errs <==> exists i :: 0 <= i < |food| && food[i].stars != base.stars
    ensures errs <= {BaseStars, BaseLevel, FoodQuantity, FoodStars}
  {
    (if base.stars >= 6 then {BaseStars} else {})
    + (if base.level != maxLevel(base.stars) then {BaseLevel} else {})
    + (if |food| < base.stars then {FoodQuantity} else {})
    + (if exists i :: 0 <= i < |food| && food[i].stars != base.stars then {FoodStars} else {})
  }

  /** Every validation error of the request. */
  function Errors(base: MonsterInstance, req: PowerUpRequest, maxLevel: int -> int): set<PowerUpError> {
    (if !NoDup(Ids(req.food)) then {FoodNotUnique} else {})
    + (if base.id in Ids(req.food) then {BaseFoodSame} else {})
    + (if req.evolve && !req.ignoreErrors then EvolveErrors(base, req.food, maxLevel) else {})
  }

  /** The base monster after a successful request: one more star and back
      to level 1 for an evolution, untouched for a plain power-up. */
  function Evolved(base: MonsterInstance, evolve: bool): MonsterInstance {
    if evolve then base.(stars := base.stars + 1, level := 1) else base
  }

  function NotFood(foodIds: seq<nat>): MonsterInstance -> bool {
    (m: MonsterInstance) => m.id !in foodIds
  }

  function ReplaceBase(stable: seq<MonsterInstance>, base': MonsterInstance): (r: seq<MonsterInstance>)
    ensures |r| == |stable|
    ensures forall i :: 0 <= i < |r| ==> r[i] == (if stable[i].id == base'.id then base' else stable[i])
  {
    if stable == [] then [] else [if stable[0].id == base'.id then base' else stable[0]] + ReplaceBase(stable[1..], base')
  }

  /** The power-up page's POST: validate, then evolve and delete the food,
      or change nothing and report the errors. */
  function PowerUpMonster(stable: seq<MonsterInstance>, base: MonsterInstance, req: PowerUpRequest, maxLevel: int -> int): (r: PowerUpResult)
    ensures r.errors == Errors(base, req, maxLevel)
    ensures r.errors != {} ==> r.stable == stable
  {
    var errs := Errors(base, req, maxLevel);
    if errs != {} then PowerUpResult(errs, stable)
    else PowerUpResult({}, Filter(ReplaceBase(stable, Evolved(base, req.evolve)), NotFood(Ids(req.food))))
  }

  /** The request is accepted iff the food is distinct, does not include the
      monster itself, and, for an evolution with the rules in force, the
      monster is below six stars at its level cap and gets at least as many
      food monsters as it has stars, all of its own stars. */
  lemma AcceptedIff(stable: seq<MonsterInstance>, base: MonsterInstance, req: PowerUpRequest, maxLevel: int -> int)
    ensures PowerUpMonster(stable, base, req, maxLevel).errors == {} <==>
      && NoDup(Ids(req.food))
      && (forall i :: 0 <= i < |req.food| ==> req.food[i].id != base.id)
      && (req.evolve && !req.ignoreErrors ==>
            && base.stars < 6
            && base.level == maxLevel(base.stars)
            && |req.food| >= base.stars
            && forall i :: 0 <= i < |req.food| ==> req.food[i].stars == base.stars)
  {
    var errs := Errors(base, req, maxLevel);
    var ids := Ids(req.food);
    if base.id in ids {
      var k :| 0 <= k < |ids| && ids[k] == base.id;
      assert req.food[k].id == base.id;
    }
    if exists i :: 0 <= i < |req.food| && req.food[i].id == base.id {
      var i :| 0 <= i < |req.food| && req.food[i].id == base.id;
      assert ids[i] == base.id;
    }
    if req.evolve && !req.ignoreErrors && errs == {} {
      assert EvolveErrors(base, req.food, maxLevel) == {};
    }
  }

  /** Duplicate food is an error, evolution rules ignored or not. */
  lemma DuplicateFoodRejected(stable: seq<MonsterInstance>, base: MonsterInstance, req: PowerUpRequest, maxLevel: int -> int, i: int, j: int)
    requires 0 <= i < j < |req.food| && req.food[i].id == req.food[j].id
    ensures FoodNotUnique in PowerUpMonster(stable, base, req, maxLevel).errors
  {
    var ids := Ids(req.food);
    assert ids[i] == ids[j];
  }

  /** Feeding a monster to itself is an error, evolution rules ignored or not. */
  lemma SelfFeedingRejected(stable: seq<MonsterInstance>, base: MonsterInstance, req: PowerUpRequest, maxLevel: int -> int, i: int)
    requires 0 <= i < |req.food| && req.food[i].id == base.id
    ensures BaseFoodSame in PowerUpMonster(stable, base, req, maxLevel).errors
  {
    assert Ids(req.food)[i] == base.id;
  }

  /** After an accepted evolution the monster has exactly one more star and
      level 1, nothing else about it changes, and every food monster is
      gone while every other monster stays. */
  lemma EvolutionOutcome(stable: seq<MonsterInstance>, base: MonsterInstance, req: PowerUpRequest, maxLevel: int -> int)
    requires base in stable
    requires PowerUpMonster(stable, base, req, maxLevel).errors == {}
    ensures req.evolve ==> base.(stars := base.stars + 1, level := 1) in PowerUpMonster(stable, base, req, maxLevel).stable
    ensures !req.evolve ==> base in PowerUpMonster(stable, base, req, maxLevel).stable
    ensures forall i :: 0 <= i < |req.food| ==> forall m :: m in PowerUpMonster(stable, base, req, maxLevel).stable ==> m.id != req.food[i].id
    ensures forall m :: m in stable && m.id != base.id && m.id !in Ids(req.food) ==> m in PowerUpMonster(stable, base, req, maxLevel).stable
  {
    var base' := Evolved(base, req.evolve);
    var ids := Ids(req.food);
    AcceptedStable(stable, base, req, maxLevel);
    OutcomeOf(stable, base, base', req.food);
    if req.evolve {
      assert base' == base.(stars := base.stars + 1, level := 1);
    } else {
      assert base' == base;
    }
  }

  /** What the accepted request leaves in the summoner's monsters. */
  lemma OutcomeOf(stable: seq<MonsterInstance>, base: MonsterInstance, base': MonsterInstance, food: seq<MonsterInstance>)
    requires base in stable && base'.id == base.id && base.id !in Ids(food)
    ensures base' in Filter(ReplaceBase(stable, base'), NotFood(Ids(food)))
    ensures forall i :: 0 <= i < |food| ==> forall m :: m in Filter(ReplaceBase(stable, base'), NotFood(Ids(food))) ==> m.id != food[i].id
    ensures forall m :: m in stable && m.id != base.id && m.id !in Ids(food) ==> m in Filter(ReplaceBase(stable, base'), NotFood(Ids(food)))
  {
    BaseKept(stable, base, base', Ids(food));
    FoodRemoved(ReplaceBase(stable, base'), food);
    OthersKept(stable, base', Ids(food));
  }

  lemma AcceptedStable(stable: seq<MonsterInstance>, base: MonsterInstance, req: PowerUpRequest, maxLevel: int -> int)
    requires PowerUpMonster(stable, base, req, maxLevel).errors == {}
    ensures base.id !in Ids(req.food)
    ensures PowerUpMonster(stable, base, req, maxLevel).stable == Filter(ReplaceBase(stable, Evolved(base, req.evolve)), NotFood(Ids(req.food)))
  {
    assert Errors(base, req, maxLevel) == {};
  }

  lemma BaseKept(stable: seq<MonsterInstance>, base: MonsterInstance, base': MonsterInstance, ids: seq<nat>)
    requires base in stable && base'.id == base.id && base'.id !in ids
    ensures base' in Filter(ReplaceBase(stable, base'), NotFood(ids))
  {
    var k :| 0 <= k < |stable| && stable[k] == base;
    assert ReplaceBase(stable, base')[k] == base';
  }

  lemma FoodRemoved(xs: seq<MonsterInstance>, food: seq<MonsterInstance>)
    ensures forall i :: 0 <= i < |food| ==> forall m :: m in Filter(xs, NotFood(Ids(food))) ==> m.id != food[i].id
  {
    var ids := Ids(food);
    forall i | 0 <= i < |food| ensures forall m :: m in Filter(xs, NotFood(ids)) ==> m.id != food[i].id {
      assert ids[i] == food[i].id;
    }
  }

  lemma OthersKept(stable: seq<MonsterInstance>, base': MonsterInstance, ids: seq<nat>)
    ensures forall m :: m in stable && m.id != base'.id && m.id !in ids ==> m in Filter(ReplaceBase(stable, base'), NotFood(ids))
  {
    forall m | m in stable && m.id != base'.id && m.id !in ids ensures m in Filter(ReplaceBase(stable, base'), NotFood(ids)) {
      var j :| 0 <= j < |stable| && stable[j] == m;
      assert ReplaceBase(stable, base')[j] == m;
    }
  }

  /** Evolution with the rules in force never goes past six stars. */
  lemma RuledEvolutionCapped(stable: seq<MonsterInstance>, base: MonsterInstance, req: PowerUpRequest, maxLevel: int -> int)
    requires req.evolve && !req.ignoreErrors
    requires PowerUpMonster(stable, base, req, maxLevel).errors == {}
    ensures Evolved(base, req.evolve).stars <= 6
  {
    AcceptedIff(stable, base, req, maxLevel);
  }
}
