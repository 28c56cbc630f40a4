/** The artifact listing's own filter methods: the slot choice split into
    element and archetype codes, effects (all or any), assigned or not. */
module ArtifactFilters {
  import opened Optional
  import opened Seqs
  import opened Models

  // ---------------------------------------------------------------- slot

  /** The chosen slot codes sorted into element codes and archetype codes;
      a code that is an element code is never taken as an archetype, and a
      code of neither kind is dropped. */
  function SplitSlots(value: seq<int>, allElements: seq<int>, allArchetypes: seq<int>): (r: (seq<int>, seq<int>))
    ensures forall s :: s in r.0 <==> s in value && s in allElements
    ensures forall s :: s in r.1 <==> s in value && s !in allElements && s in allArchetypes
    ensures |r.0| + |r.1| <= |value|
  {
    if value == [] then ([], [])
    else
      var (es, as') := SplitSlots(value[1..], allElements, allArchetypes);
      var s := value[0];
      assert forall x :: x in value <==> x == s || x in value[1..];
      if s in allElements then ([s] + es, as')
      else if s in allArchetypes then (es, [s] + as')
      else (es, as')
  }

  function InSlots(elements: seq<int>, archetypes: seq<int>): Artifact -> bool {
    (a: Artifact) =>
      (a.element.Some? && a.element.value in elements) || (a.archetype.Some? && a.archetype.value in archetypes)
  }

  /** `element__in=elements | archetype__in=archetypes`; no slot chosen, no
      filtering. */
  function BySlot(xs: seq<Artifact>, value: seq<int>, allElements: seq<int>, allArchetypes: seq<int>): (r: seq<Artifact>)
    ensures value == [] ==> r == xs
  {
    if value == [] then xs
    else
      var (es, as') := SplitSlots(value, allElements, allArchetypes);
      Filter(xs, InSlots(es, as'))
  }

  /** An artifact is kept iff its element is a chosen element code or its
      archetype is a chosen archetype code. */
  lemma BySlotSpec(xs: seq<Artifact>, value: seq<int>, allElements: seq<int>, allArchetypes: seq<int>, a: Artifact)
    requires value != []
    ensures a in BySlot(xs, value, allElements, allArchetypes) <==>
      a in xs &&
      ((a.element.Some? && a.element.value in value && a.element.value in allElements)
       || (a.archetype.Some? && a.archetype.value in value && a.archetype.value !in allElements && a.archetype.value in allArchetypes))
  {
  }

  /** Choosing every element code keeps every artifact of an element slot. */
  lemma AllElementsChosen(xs: seq<Artifact>, allElements: seq<int>, allArchetypes: seq<int>, a: Artifact)
    requires allElements != [] && a in xs
    requires a.element.Some? && a.element.value in allElements
    ensures a in BySlot(xs, allElements, allElements, allArchetypes)
  {
  }

  // ---------------------------------------------------------------- effects

  function HasAllEffects(want: seq<int>): Artifact -> bool {
    (a: Artifact) => ContainsAll(a.effects, want)
  }

  function HasAnyEffect(want: seq<int>): Artifact -> bool {
    (a: Artifact) => Overlaps(a.effects, want)
  }

  /** The effect filter: every requested effect, or with `effects_logic` any
      of them; no effect requested, no filtering. */
  function ByEffects(xs: seq<Artifact>, want: seq<int>, anyLogic: Option<bool>): (r: seq<Artifact>)
    ensures want == [] ==> r == xs
  {
    if want == [] then xs
    else if anyLogic == Some(true) then Filter(xs, HasAnyEffect(want))
    else Filter(xs, HasAllEffects(want))
  }

  lemma ByEffectsSpec(xs: seq<Artifact>, want: seq<int>, anyLogic: Option<bool>, a: Artifact)
    requires want != []
    ensures anyLogic != Some(true) ==>
      (a in ByEffects(xs, want, anyLogic) <==> a in xs && forall i :: 0 <= i < |want| ==> want[i] in a.effects)
    ensures anyLogic == Some(true) ==>
      (a in ByEffects(xs, want, anyLogic) <==> a in xs && exists i :: 0 <= i < |want| && want[i] in a.effects)
  {
  }

  /** Requiring all effects keeps a subset of what requiring any keeps, and
      the two agree on a single requested effect. */
  lemma EffectsAllWithinAny(xs: seq<Artifact>, want: seq<int>, a: Artifact)
    requires want != []
    ensures a in ByEffects(xs, want, None) ==> a in ByEffects(xs, want, Some(true))
    ensures |want| == 1 ==> ByEffects(xs, want, None) == ByEffects(xs, want, Some(true))
  {
    if a in ByEffects(xs, want, None) {
      assert want[0] in a.effects;
    }
    if |want| == 1 {
      forall b: Artifact ensures HasAllEffects(want)(b) == HasAnyEffect(want)(b) {
        if HasAnyEffect(want)(b) {
          var i :| 0 <= i < |want| && want[i] in b.effects;
          assert i == 0;
          assert ContainsAll(b.effects, want);
        }
        if HasAllEffects(want)(b) {
          assert want[0] in b.effects;
        }
      }
      FilterExt(xs, HasAllEffects(want), HasAnyEffect(want));
    }
  }

  // ---------------------------------------------------------------- assigned

  function ArtifactAssignedIs(b: bool): Artifact -> bool {
    (a: Artifact) => a.assignedTo.Some? == b
  }

  /** `assigned_to__isnull = not value`; no value, no filtering. */
  function ByArtifactAssigned(xs: seq<Artifact>, v: Option<bool>): (r: seq<Artifact>)
    ensures v.None? ==> r == xs
    ensures v.Some? ==> forall a :: a in r <==> a in xs && (a.assignedTo.Some? <==> v.value)
  {
    if v.None? then xs else Filter(xs, ArtifactAssignedIs(v.value))
  }

  lemma ArtifactAssignedPartition(xs: seq<Artifact>)
    ensures multiset(ByArtifactAssigned(xs, Some(true))) + multiset(ByArtifactAssigned(xs, Some(false))) == multiset(xs)
  {
    FilterPartition(xs, ArtifactAssignedIs(true), ArtifactAssignedIs(false));
  }
}
