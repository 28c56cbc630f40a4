/** The nested comparison report, as a tagged tree instead of nested
    dictionaries: a `Leaf` is a `{summoner, follower}` record (plus its winner
    once decided), a `Group` maps keys to sub-reports in insertion order. */
module Reports {
  import opened Optional
  import opened Seqs
  import opened Tallies

  /** Dictionary keys of the report: section names, category codes (display
      labels are modelled by their codes), the two kinds of artifact slot, and
      Python's `None` bucket. */
  datatype Key = Name(name: string) | Code(code: int) | ElementSlot(element: int)
               | ArchetypeSlot(archetype: int) | Absent

  /** Category codes as report keys, in the declared order. */
  function CodeKeys(codes: seq<int>): (ks: seq<Key>)
    ensures |ks| == |codes|
    ensures forall i :: 0 <= i < |codes| ==> ks[i] == Code(codes[i])
  {
    if codes == [] then [] else [Code(codes[0])] + CodeKeys(codes[1..])
  }

  lemma CodeKeysMember(codes: seq<int>, c: int)
    ensures Code(c) in CodeKeys(codes) <==> c in codes
  {
    if c in codes {
      var i :| 0 <= i < |codes| && codes[i] == c;
      assert CodeKeys(codes)[i] == Code(c);
    }
  }

  lemma CodeKeysNoDup(codes: seq<int>)
    requires NoDup(codes)
    ensures NoDup(CodeKeys(codes))
  {
  }

  /** A nullable category column as a key: `None` is its own bucket. */
  function OptKey(o: Option<int>): Key {
    match o
    case None => Absent
    case Some(c) => Code(c)
  }

  datatype Node = Leaf(tally: Tally, winner: Option<Winner>) | Group(entries: seq<Entry>)

  datatype Entry = Entry(key: Key, node: Node)

  /** Every leaf, at any depth, carries the winner its figures call for. */
  ghost predicate Decided(n: Node)
    decreases n
  {
    match n
    case Leaf(t, w) => w == Some(Decide(t))
    case Group(es) => forall i :: 0 <= i < |es| ==> Decided(es[i].node)
  }

  /** `m` has the shape, keys and leaf figures of `n`; only winners may differ. */
  ghost predicate SameFigures(n: Node, m: Node)
    decreases n
  {
    match n
    case Leaf(t, _) => m.Leaf? && m.tally == t
    case Group(es) =>
      && m.Group?
      && |m.entries| == |es|
      && forall i :: 0 <= i < |es| ==>
           m.entries[i].key == es[i].key && SameFigures(es[i].node, m.entries[i].node)
  }

  /** The winner pass: walks the whole tree and attaches `Decide` to every
      leaf, leaving keys, nesting and figures as they were. */
  function FindWinners(n: Node): (r: Node)
    ensures Decided(r)
    ensures SameFigures(n, r)
    decreases n
  {
    match n
    case Leaf(t, _) => Leaf(t, Some(Decide(t)))
    case Group(es) =>
      Group(seq(|es|, i requires 0 <= i < |es| => Entry(es[i].key, FindWinners(es[i].node))))
  }

  /** `dict[key]` on a group: the first entry with that key. */
  function Find(es: seq<Entry>, k: Key): (r: Option<Node>)
    ensures r.Some? <==> exists i :: 0 <= i < |es| && es[i].key == k
  {
    if es == [] then None
    else if es[0].key == k then Some(es[0].node)
    else
      var r := Find(es[1..], k);
      assert forall i :: 1 <= i < |es| ==> es[i] == es[1..][i - 1];
      r
  }

  /** The entry found is the first one carrying the key. */
  lemma {:induction false} FindAt(es: seq<Entry>, i: nat, k: Key)
    requires i < |es| && es[i].key == k
    requires forall j :: 0 <= j < i ==> es[j].key != k
    ensures Find(es, k) == Some(es[i].node)
  {
    if i > 0 {
      FindAt(es[1..], i - 1, k);
    }
  }

  /** `report[p0][p1]...` along a path of keys. */
  function Lookup(n: Node, path: seq<Key>): Option<Node>
    decreases |path|
  {
    if path == [] then Some(n)
    else match n
      case Leaf(_, _) => None
      case Group(es) =>
        match Find(es, path[0])
        case None => None
        case Some(c) => Lookup(c, path[1..])
  }

  lemma LookupOne(n: Node, k: Key, m: Node)
    requires n.Group? && Find(n.entries, k) == Some(m)
    ensures Lookup(n, [k]) == Some(m)
  {
  }

  lemma LookupTwo(n: Node, k1: Key, k2: Key, m: Node, leaf: Node)
    requires n.Group? && Find(n.entries, k1) == Some(m)
    requires m.Group? && Find(m.entries, k2) == Some(leaf)
    ensures Lookup(n, [k1, k2]) == Some(leaf)
  {
    LookupOne(m, k2, leaf);
    assert [k1, k2][1..] == [k2];
  }

  lemma {:induction false} FindSameFigures(es: seq<Entry>, fs: seq<Entry>, k: Key)
    requires |fs| == |es|
    requires forall i :: 0 <= i < |es| ==> fs[i].key == es[i].key && SameFigures(es[i].node, fs[i].node)
    ensures Find(es, k).Some? == Find(fs, k).Some?
    ensures Find(es, k).Some? ==> SameFigures(Find(es, k).value, Find(fs, k).value)
  {
    if es != [] && es[0].key != k {
      FindSameFigures(es[1..], fs[1..], k);
    }
  }

  /** Looking a path up in trees with the same figures reaches the same leaf
      figures; in a decided tree that leaf also carries its winner. */
  lemma {:induction false} LookupSameFigures(n: Node, m: Node, path: seq<Key>, t: Tally, w: Option<Winner>)
    requires SameFigures(n, m) && Decided(m)
    requires Lookup(n, path) == Some(Leaf(t, w))
    ensures Lookup(m, path) == Some(Leaf(t, Some(Decide(t))))
    decreases |path|
  {
    if path == [] {
    } else {
      FindSameFigures(n.entries, m.entries, path[0]);
      var c := Find(n.entries, path[0]).value;
      var c' := Find(m.entries, path[0]).value;
      FindDecided(m.entries, path[0]);
      LookupSameFigures(c, c', path[1..], t, w);
    }
  }

  lemma {:induction false} FindDecided(es: seq<Entry>, k: Key)
    requires forall i :: 0 <= i < |es| ==> Decided(es[i].node)
    ensures Find(es, k).Some? ==> Decided(Find(es, k).value)
  {
    if es != [] && es[0].key != k {
      FindDecided(es[1..], k);
    }
  }

  /** Winner at a leaf: wherever the unscored report has a leaf, the scored
      report has the same figures there and the majority winner. */
  lemma WinnerAt(n: Node, path: seq<Key>, t: Tally, w: Option<Winner>)
    requires Lookup(n, path) == Some(Leaf(t, w))
    ensures Lookup(FindWinners(n), path) == Some(Leaf(t, Some(Decide(t))))
  {
    LookupSameFigures(n, FindWinners(n), path, t, w);
  }

  /** One pre-seeded axis as a group: one leaf per declared bucket, in the
      declared order. */
  function AxisNode(keys: seq<Key>, a: map<Key, Tally>): (n: Node)
    ensures n.Group? && |n.entries| == |keys|
  {
    Group(AxisEntries(keys, a))
  }

  /** One leaf per declared key, in declaration order; the tables this is
      applied to hold every declared key. */
  function AxisEntries(keys: seq<Key>, a: map<Key, Tally>): (es: seq<Entry>)
    ensures |es| == |keys|
    ensures forall i :: 0 <= i < |keys| && keys[i] in a ==> es[i] == Entry(keys[i], Leaf(a[keys[i]], None))
  {
    if keys == [] then []
    else [Entry(keys[0], Leaf(if keys[0] in a then a[keys[0]] else Zero, None))] + AxisEntries(keys[1..], a)
  }

  /** Every declared bucket of an axis is reachable and holds the axis figures. */
  lemma {:induction false} AxisLookup(keys: seq<Key>, a: map<Key, Tally>, k: Key)
    requires k in keys && k in a
    ensures Find(AxisEntries(keys, a), k) == Some(Leaf(a[k], None))
  {
    if keys[0] != k {
      AxisLookup(keys[1..], a, k);
    }
  }

  /** The entries of a group carry, in order, the given section names. */
  ghost predicate KeyedBy(es: seq<Entry>, names: seq<string>) {
    |es| == |names| && forall j :: 0 <= j < |es| ==> es[j].key == Name(names[j])
  }

  /** `report[name]` on a group whose section names are distinct. */
  lemma FindNamed(es: seq<Entry>, names: seq<string>, i: nat)
    requires KeyedBy(es, names) && NoDup(names) && i < |names|
    ensures Find(es, Name(names[i])) == Some(es[i].node)
  {
    FindAt(es, i, Name(names[i]));
  }

  /** A top-level leaf of a group with distinct section names. */
  lemma NamedLeaf(n: Node, names: seq<string>, i: nat, t: Tally)
    requires n.Group? && KeyedBy(n.entries, names) && NoDup(names) && i < |names|
    requires n.entries[i].node == Leaf(t, None)
    ensures Lookup(FindWinners(n), [Name(names[i])]) == Some(Leaf(t, Some(Decide(t))))
  {
    FindNamed(n.entries, names, i);
    LookupOne(n, Name(names[i]), Leaf(t, None));
    WinnerAt(n, [Name(names[i])], t, None);
  }

  /** A bucket leaf under a pre-seeded axis section of a group with distinct
      section names. */
  lemma NamedBucket(n: Node, names: seq<string>, i: nat, keys: seq<Key>, a: map<Key, Tally>, k: Key)
    requires n.Group? && KeyedBy(n.entries, names) && NoDup(names) && i < |names|
    requires n.entries[i].node == AxisNode(keys, a)
    requires k in keys && k in a
    ensures Lookup(FindWinners(n), [Name(names[i]), k]) == Some(Leaf(a[k], Some(Decide(a[k]))))
  {
    FindNamed(n.entries, names, i);
    AxisLookup(keys, a, k);
    LookupTwo(n, Name(names[i]), k, AxisNode(keys, a), Leaf(a[k], None));
    WinnerAt(n, [Name(names[i]), k], a[k], None);
  }
}
