/** The rune listing's own filter methods: substats (all or any, optionally
    reversed), assigned or not, and grindable / enchantable with the
    summoner's own craft stock. */
module RuneFilters {
  import opened Optional
  import opened Seqs
  import opened Models

  // ---------------------------------------------------------------- substats

  function HasAllSubstats(want: seq<int>): Rune -> bool {
    (r: Rune) => ContainsAll(r.substats, want)
  }

  function LacksSomeSubstat(want: seq<int>): Rune -> bool {
    (r: Rune) => !ContainsAll(r.substats, want)
  }

  function HasAnySubstat(want: seq<int>): Rune -> bool {
    (r: Rune) => Overlaps(r.substats, want)
  }

  function HasNoSubstat(want: seq<int>): Rune -> bool {
    (r: Rune) => !Overlaps(r.substats, want)
  }

  /** The substat filter: containment of every requested stat, or with
      `substat_logic` overlap with them; `substat_reverse` turns the filter
      into the exclusion of the same runes. No stats requested, no filtering. */
  function BySubstats(rs: seq<Rune>, want: seq<int>, anyLogic: Option<bool>, reverse: Option<bool>): (r: seq<Rune>)
    ensures want == [] ==> r == rs
  {
    if want == [] then rs
    else if anyLogic == Some(true) then
      if reverse == Some(true) then Filter(rs, HasNoSubstat(want)) else Filter(rs, HasAnySubstat(want))
    else
      if reverse == Some(true) then Filter(rs, LacksSomeSubstat(want)) else Filter(rs, HasAllSubstats(want))
  }

  /** Default mode keeps exactly the runes carrying every requested stat;
      `substat_logic` keeps those carrying at least one. */
  lemma BySubstatsSpec(rs: seq<Rune>, want: seq<int>, anyLogic: Option<bool>, x: Rune)
    requires want != []
    ensures anyLogic != Some(true) ==>
      (x in BySubstats(rs, want, anyLogic, None) <==> x in rs && forall i :: 0 <= i < |want| ==> want[i] in x.substats)
    ensures anyLogic == Some(true) ==>
      (x in BySubstats(rs, want, anyLogic, None) <==> x in rs && exists i :: 0 <= i < |want| && want[i] in x.substats)
  {
  }

  /** For either logic, the reversed filter is the complement of the plain
      one: the two split the listing. */
  lemma SubstatsPartition(rs: seq<Rune>, want: seq<int>, anyLogic: Option<bool>)
    requires want != []
    ensures multiset(BySubstats(rs, want, anyLogic, None)) + multiset(BySubstats(rs, want, anyLogic, Some(true))) == multiset(rs)
    ensures forall x :: !(x in BySubstats(rs, want, anyLogic, None) && x in BySubstats(rs, want, anyLogic, Some(true)))
  {
    if anyLogic == Some(true) {
      FilterPartition(rs, HasAnySubstat(want), HasNoSubstat(want));
    } else {
      FilterPartition(rs, HasAllSubstats(want), LacksSomeSubstat(want));
    }
  }

  /** Containment is the narrower request: it keeps a subset of what overlap keeps. */
  lemma ContainsWithinOverlap(rs: seq<Rune>, want: seq<int>, x: Rune)
    requires want != [] && x in BySubstats(rs, want, None, None)
    ensures x in BySubstats(rs, want, Some(true), None)
  {
    assert want[0] in x.substats;
  }

  // ---------------------------------------------------------------- assigned

  function AssignedIs(b: bool): Rune -> bool {
    (r: Rune) => r.assignedTo.Some? == b
  }

  /** `assigned_to__isnull = not value`; no value, no filtering. */
  function ByAssigned(rs: seq<Rune>, v: Option<bool>): (r: seq<Rune>)
    ensures v.None? ==> r == rs
    ensures v.Some? ==> forall x :: x in r <==> x in rs && (x.assignedTo.Some? <==> v.value)
  {
    if v.None? then rs else Filter(rs, AssignedIs(v.value))
  }

  /** Assigned and unassigned split the listing. */
  lemma AssignedPartition(rs: seq<Rune>)
    ensures multiset(ByAssigned(rs, Some(true))) + multiset(ByAssigned(rs, Some(false))) == multiset(rs)
  {
    FilterPartition(rs, AssignedIs(true), AssignedIs(false));
  }

  // ---------------------------------------------------------------- crafts

  /** The plain and ancient kind of one family of crafts. */
  datatype CraftFamily = CraftFamily(plain: CraftKind, ancient: CraftKind)

  const Grinds := CraftFamily(Grindstone, AncientGrindstone)
  const Gems := CraftFamily(EnchantGem, AncientGem)

  /** One disjunct of the query: runes of this ancient-ness and set whose
      main and innate stat are not the craft's stat. */
  datatype Term = Term(ancient: bool, runeSet: Option<int>, stat: int)

  /** A craft stack the summoner can use: their own, at least one left, of
      the family's kinds. */
  predicate Usable(c: RuneCraft, summoner: nat, fam: CraftFamily) {
    c.owner == summoner && c.quantity >= 1 && (c.kind == fam.plain || c.kind == fam.ancient)
  }

  function TermOf(c: RuneCraft, fam: CraftFamily): Term {
    Term(c.kind == fam.ancient, c.runeSet, c.stat)
  }

  /** `Q(ancient=…) & Q(type=…) & ~Q(main_stat=…) & ~Q(innate_stat=…)`: a
      null craft set matches no rune, and a null innate stat differs from
      every stat. */
  predicate TermFits(t: Term, r: Rune) {
    r.ancient == t.ancient && t.runeSet == Some(r.runeSet) && r.mainStat != t.stat && r.innateStat != Some(t.stat)
  }

  /** Some usable craft of the list gives the term `t`. */
  predicate Yields(crafts: seq<RuneCraft>, summoner: nat, fam: CraftFamily, t: Term) {
    exists i :: 0 <= i < |crafts| && Usable(crafts[i], summoner, fam) && TermOf(crafts[i], fam) == t
  }

  lemma YieldsCons(crafts: seq<RuneCraft>, summoner: nat, fam: CraftFamily, t: Term)
    requires crafts != []
    ensures Yields(crafts, summoner, fam, t) <==>
      (Usable(crafts[0], summoner, fam) && TermOf(crafts[0], fam) == t) || Yields(crafts[1..], summoner, fam, t)
  {
    if Yields(crafts, summoner, fam, t) {
      var i :| 0 <= i < |crafts| && Usable(crafts[i], summoner, fam) && TermOf(crafts[i], fam) == t;
      if i > 0 { assert crafts[1..][i - 1] == crafts[i]; }
    }
    if Yields(crafts[1..], summoner, fam, t) {
      var i :| 0 <= i < |crafts[1..]| && Usable(crafts[1..][i], summoner, fam) && TermOf(crafts[1..][i], fam) == t;
      assert crafts[i + 1] == crafts[1..][i];
    }
  }

  /** The nested kind → set → stats lists, flattened: one term per distinct
      (kind, set, stat) among the usable crafts, in first-seen order. */
  function Collect(crafts: seq<RuneCraft>, summoner: nat, fam: CraftFamily, seen: seq<Term>): (ts: seq<Term>)
    requires NoDup(seen)
    ensures NoDup(ts)
    ensures forall t :: t in ts <==> t in seen || Yields(crafts, summoner, fam, t)
    decreases |crafts|
  {
    if crafts == [] then seen
    else
      var c := crafts[0];
      var seen' := if Usable(c, summoner, fam) && TermOf(c, fam) !in seen then seen + [TermOf(c, fam)] else seen;
      assert NoDup(seen') by {
        if seen' != seen {
          forall i, j | 0 <= i < j < |seen'| ensures seen'[i] != seen'[j] {
            if j == |seen| { assert seen'[i] in seen; }
          }
        }
      }
      var ts := Collect(crafts[1..], summoner, fam, seen');
      assert forall t :: Yields(crafts, summoner, fam, t) <==>
        (Usable(c, summoner, fam) && TermOf(c, fam) == t) || Yields(crafts[1..], summoner, fam, t) by {
        forall t ensures Yields(crafts, summoner, fam, t) <==>
          (Usable(c, summoner, fam) && TermOf(c, fam) == t) || Yields(crafts[1..], summoner, fam, t) {
          YieldsCons(crafts, summoner, fam, t);
        }
      }
      ts
  }

  function Terms(crafts: seq<RuneCraft>, summoner: nat, fam: CraftFamily): seq<Term> {
    Collect(crafts, summoner, fam, [])
  }

  /** The OR of the terms; an empty OR is false. */
  function AnyTerm(ts: seq<Term>): Rune -> bool {
    (r: Rune) => exists i :: 0 <= i < |ts| && TermFits(ts[i], r)
  }

  function NoTerm(ts: seq<Term>): Rune -> bool {
    (r: Rune) => !exists i :: 0 <= i < |ts| && TermFits(ts[i], r)
  }

  /** The summoner can grind or enchant the rune with this craft: a usable
      stack of the rune's ancient-ness and set whose stat is neither the
      rune's main nor its innate stat. */
  predicate CraftFits(c: RuneCraft, summoner: nat, fam: CraftFamily, r: Rune) {
    && Usable(c, summoner, fam)
    && r.ancient == (c.kind == fam.ancient)
    && c.runeSet == Some(r.runeSet)
    && r.mainStat != c.stat
    && r.innateStat != Some(c.stat)
  }

  /** A rune fits the craft query iff the summoner holds a usable craft of
      the same ancient-ness and set whose stat is neither the rune's main
      nor its innate stat. */
  lemma CraftQuerySpec(crafts: seq<RuneCraft>, summoner: nat, fam: CraftFamily, r: Rune)
    ensures AnyTerm(Terms(crafts, summoner, fam))(r) <==>
      exists i :: 0 <= i < |crafts| && CraftFits(crafts[i], summoner, fam, r)
  {
    var ts := Terms(crafts, summoner, fam);
    if AnyTerm(ts)(r) {
      var k :| 0 <= k < |ts| && TermFits(ts[k], r);
      assert ts[k] in ts;
      assert Yields(crafts, summoner, fam, ts[k]);
      var i :| 0 <= i < |crafts| && Usable(crafts[i], summoner, fam) && TermOf(crafts[i], fam) == ts[k];
    }
    if exists i :: 0 <= i < |crafts| && CraftFits(crafts[i], summoner, fam, r) {
      var i :| 0 <= i < |crafts| && CraftFits(crafts[i], summoner, fam, r);
      var t := TermOf(crafts[i], fam);
      assert Yields(crafts, summoner, fam, t);
      assert t in ts;
      var k :| 0 <= k < |ts| && ts[k] == t;
      assert TermFits(ts[k], r);
    }
  }

  /** The grindable / enchantable filter as the code writes it. An empty
      `Q()` is no condition to the ORM for `filter` and `exclude` alike, so
      when the summoner has no usable craft both settings keep every rune. */
  function ByCraftAsWritten(rs: seq<Rune>, summoner: Option<nat>, crafts: seq<RuneCraft>, fam: CraftFamily, v: Option<bool>): seq<Rune> {
    if v.None? || summoner.None? then rs
    else
      var ts := Terms(crafts, summoner.value, fam);
      if ts == [] then rs
      else if v.value then Filter(rs, AnyTerm(ts)) else Filter(rs, NoTerm(ts))
  }

  /** The listing as written: with no usable craft, "grindable" and "not
      grindable" both list a rune, so the two settings do not split it. */
  lemma AsWrittenNoCraftsKeepsBoth(r: Rune, summoner: nat, fam: CraftFamily)
    ensures ByCraftAsWritten([r], Some(summoner), [], fam, Some(true)) == [r]
    ensures ByCraftAsWritten([r], Some(summoner), [], fam, Some(false)) == [r]
    ensures multiset(ByCraftAsWritten([r], Some(summoner), [], fam, Some(true)))
      + multiset(ByCraftAsWritten([r], Some(summoner), [], fam, Some(false))) != multiset([r])
  {
    assert Terms([], summoner, fam) == [];
    assert multiset([r]) + multiset([r]) != multiset([r]) by {
      assert (multiset([r]) + multiset([r]))[r] == 2;
    }
  }

  /** The filter as intended: the query is the OR of the terms, empty or
      not; no summoner (the rune-assignment dialog) or no value, no filtering. */
  function ByCraft(rs: seq<Rune>, summoner: Option<nat>, crafts: seq<RuneCraft>, fam: CraftFamily, v: Option<bool>): (r: seq<Rune>)
    ensures summoner.None? || v.None? ==> r == rs
  {
    if v.None? || summoner.None? then rs
    else
      var ts := Terms(crafts, summoner.value, fam);
      if v.value then Filter(rs, AnyTerm(ts)) else Filter(rs, NoTerm(ts))
  }

  /** The two settings split the listing, with or without usable crafts. */
  lemma CraftPartition(rs: seq<Rune>, summoner: nat, crafts: seq<RuneCraft>, fam: CraftFamily)
    ensures multiset(ByCraft(rs, Some(summoner), crafts, fam, Some(true)))
      + multiset(ByCraft(rs, Some(summoner), crafts, fam, Some(false))) == multiset(rs)
  {
    var ts := Terms(crafts, summoner, fam);
    FilterPartition(rs, AnyTerm(ts), NoTerm(ts));
  }

  /** Where the summoner has some usable craft, the intended filter is the
      one the code writes. */
  lemma CraftAgreesWithUsableStock(rs: seq<Rune>, summoner: nat, crafts: seq<RuneCraft>, fam: CraftFamily, v: Option<bool>)
    requires exists i :: 0 <= i < |crafts| && Usable(crafts[i], summoner, fam)
    ensures ByCraft(rs, Some(summoner), crafts, fam, v) == ByCraftAsWritten(rs, Some(summoner), crafts, fam, v)
  {
    var i :| 0 <= i < |crafts| && Usable(crafts[i], summoner, fam);
    assert Yields(crafts, summoner, fam, TermOf(crafts[i], fam));
    assert TermOf(crafts[i], fam) in Terms(crafts, summoner, fam);
  }

  /** The intended filter, per rune. */
  lemma ByCraftSpec(rs: seq<Rune>, summoner: nat, crafts: seq<RuneCraft>, fam: CraftFamily, v: bool, r: Rune)
    ensures r in ByCraft(rs, Some(summoner), crafts, fam, Some(v)) <==>
      r in rs && (v <==> (exists i :: 0 <= i < |crafts| && CraftFits(crafts[i], summoner, fam, r)))
  {
    CraftQuerySpec(crafts, summoner, fam, r);
  }

  // ---------------------------------------------------------------- the listing

  /** The rune listing's own filter fields and the viewing summoner. */
  datatype RuneQuery = RuneQuery(
    substats: seq<int>,
    substatLogic: Option<bool>,
    substatReverse: Option<bool>,
    isAssigned: Option<bool>,
    grindable: Option<bool>,
    enchantable: Option<bool>)

  /** The rune listing's own filters in the order the filter set applies
      them, with the intended grindable / enchantable filter. */
  function ApplyRuneQuery(rs: seq<Rune>, summoner: Option<nat>, crafts: seq<RuneCraft>, q: RuneQuery): (r: seq<Rune>)
    ensures |r| <= |rs|
    ensures forall x :: x in r ==> x in rs
  {
    var r1 := BySubstats(rs, q.substats, q.substatLogic, q.substatReverse);
    var r2 := ByAssigned(r1, q.isAssigned);
    var r3 := ByCraft(r2, summoner, crafts, Grinds, q.grindable);
    assert |r3| <= |rs| && forall x :: x in r3 ==> x in rs;
    ByCraft(r3, summoner, crafts, Gems, q.enchantable)
  }

  /** The substat request on one rune: no stat requested admits it; otherwise
      containment (or overlap with `substat_logic`), negated by `substat_reverse`. */
  predicate SubstatsOk(want: seq<int>, anyLogic: Option<bool>, reverse: Option<bool>, x: Rune) {
    want == [] ||
    (reverse == Some(true)) != (
      if anyLogic == Some(true) then exists i :: 0 <= i < |want| && want[i] in x.substats
      else forall i :: 0 <= i < |want| ==> want[i] in x.substats)
  }

  /** The craft request on one rune: no value or no summoner admits it;
      otherwise the value says whether some usable craft fits the rune. */
  predicate CraftOk(summoner: Option<nat>, crafts: seq<RuneCraft>, fam: CraftFamily, v: Option<bool>, x: Rune) {
    v.None? || summoner.None? ||
    (v.value <==> exists i :: 0 <= i < |crafts| && CraftFits(crafts[i], summoner.value, fam, x))
  }

  lemma SubstatsMember(rs: seq<Rune>, want: seq<int>, anyLogic: Option<bool>, reverse: Option<bool>, x: Rune)
    ensures x in BySubstats(rs, want, anyLogic, reverse) <==> x in rs && SubstatsOk(want, anyLogic, reverse, x)
  {
    if want != [] {
      assert ContainsAll(x.substats, want) <==> forall i :: 0 <= i < |want| ==> want[i] in x.substats;
      assert Overlaps(x.substats, want) <==> exists i :: 0 <= i < |want| && want[i] in x.substats;
    }
  }

  lemma CraftMember(rs: seq<Rune>, summoner: Option<nat>, crafts: seq<RuneCraft>, fam: CraftFamily, v: Option<bool>, x: Rune)
    ensures x in ByCraft(rs, summoner, crafts, fam, v) <==> x in rs && CraftOk(summoner, crafts, fam, v, x)
  {
    if v.Some? && summoner.Some? {
      ByCraftSpec(rs, summoner.value, crafts, fam, v.value, x);
    }
  }

  /** A rune is listed iff it meets the substat, assignment, grindable and
      enchantable requests, each on its own. */
  lemma ApplyRuneQuerySpec(rs: seq<Rune>, summoner: Option<nat>, crafts: seq<RuneCraft>, q: RuneQuery, x: Rune)
    ensures x in ApplyRuneQuery(rs, summoner, crafts, q) <==>
      && x in rs
      && SubstatsOk(q.substats, q.substatLogic, q.substatReverse, x)
      && (q.isAssigned.None? || (x.assignedTo.Some? <==> q.isAssigned.value))
      && CraftOk(summoner, crafts, Grinds, q.grindable, x)
      && CraftOk(summoner, crafts, Gems, q.enchantable, x)
  {
    var r1 := BySubstats(rs, q.substats, q.substatLogic, q.substatReverse);
    var r2 := ByAssigned(r1, q.isAssigned);
    var r3 := ByCraft(r2, summoner, crafts, Grinds, q.grindable);
    SubstatsMember(rs, q.substats, q.substatLogic, q.substatReverse, x);
    CraftMember(r2, summoner, crafts, Grinds, q.grindable, x);
    CraftMember(r3, summoner, crafts, Gems, q.enchantable, x);
  }

  /** Where the summoner holds a usable craft of each family, the listing is
      the one the code applies as written. */
  lemma ApplyRuneQueryAsWritten(rs: seq<Rune>, summoner: nat, crafts: seq<RuneCraft>, q: RuneQuery)
    requires exists i :: 0 <= i < |crafts| && Usable(crafts[i], summoner, Grinds)
    requires exists i :: 0 <= i < |crafts| && Usable(crafts[i], summoner, Gems)
    ensures ApplyRuneQuery(rs, Some(summoner), crafts, q) ==
      var r2 := ByAssigned(BySubstats(rs, q.substats, q.substatLogic, q.substatReverse), q.isAssigned);
      ByCraftAsWritten(ByCraftAsWritten(r2, Some(summoner), crafts, Grinds, q.grindable), Some(summoner), crafts, Gems, q.enchantable)
  {
    var r2 := ByAssigned(BySubstats(rs, q.substats, q.substatLogic, q.substatReverse), q.isAssigned);
    CraftAgreesWithUsableStock(r2, summoner, crafts, Grinds, q.grindable);
    var r3 := ByCraft(r2, Some(summoner), crafts, Grinds, q.grindable);
    CraftAgreesWithUsableStock(r3, summoner, crafts, Gems, q.enchantable);
  }

  /** An empty form lists every rune. */
  lemma EmptyRuneQueryIdentity(rs: seq<Rune>, summoner: Option<nat>, crafts: seq<RuneCraft>, q: RuneQuery)
    requires q.substats == [] && q.isAssigned.None? && q.grindable.None? && q.enchantable.None?
    ensures ApplyRuneQuery(rs, summoner, crafts, q) == rs
  {
  }
}
