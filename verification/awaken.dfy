/** Awakening a monster: the essences it costs are taken from the
    summoner's storage when asked, magic essences and those of the
    monster's own element only; then the monster becomes its awakened
    species. */
module Awakening {
  import opened Models

  /** Essences of one kind, per tier. */
  datatype Tiers = Tiers(high: int, mid: int, low: int)

  /** The summoner's essence storage. */
  datatype Storage = Storage(magic: Tiers, fire: Tiers, water: Tiers, wind: Tiers, light: Tiers, dark: Tiers)

  /** The stock of one normal element's essences. */
  function Ele(s: Storage, e: Element): Tiers
    requires e.Normal()
  {
    match e
    case Fire => s.fire
    case Water => s.water
    case Wind => s.wind
    case Light => s.light
    case Dark => s.dark
  }

  function WithEle(s: Storage, e: Element, t: Tiers): (r: Storage)
    requires e.Normal()
    ensures Ele(r, e) == t && r.magic == s.magic
    ensures forall f: Element :: f.Normal() && f != e ==> Ele(r, f) == Ele(s, f)
  {
    match e
    case Fire => s.(fire := t)
    case Water => s.(water := t)
    case Wind => s.(wind := t)
    case Light => s.(light := t)
    case Dark => s.(dark := t)
  }

  /** `if cost: stock -= cost`, tier by tier. */
  function Take(t: Tiers, high: int, mid: int, low: int): Tiers {
    Tiers(
      if high != 0 then t.high - high else t.high,
      if mid != 0 then t.mid - mid else t.mid,
      if low != 0 then t.low - low else t.low)
  }

  /** The storage after paying the species' awakening cost: magic essences
      always, element essences only for one of the five normal elements, the
      `elif` chain having no branch for any other. */
  function Pay(s: Storage, sp: Species): (r: Storage)
    ensures r.magic == Tiers(s.magic.high - sp.awakenCost.magicHigh, s.magic.mid - sp.awakenCost.magicMid, s.magic.low - sp.awakenCost.magicLow)
    ensures sp.element.Normal() ==> Ele(r, sp.element) == Tiers(
      Ele(s, sp.element).high - sp.awakenCost.eleHigh,
      Ele(s, sp.element).mid - sp.awakenCost.eleMid,
      Ele(s, sp.element).low - sp.awakenCost.eleLow)
    ensures forall e: Element :: e.Normal() && e != sp.element ==> Ele(r, e) == Ele(s, e)
  {
    var c := sp.awakenCost;
    var s1 := s.(magic := Take(s.magic, c.magicHigh, c.magicMid, c.magicLow));
    if sp.element.Normal() then WithEle(s1, sp.element, Take(Ele(s1, sp.element), c.eleHigh, c.eleMid, c.eleLow))
    else s1
  }

  /** The awakening page's POST: pay when `subtract_materials` is set, and
      turn the monster into `awakened`, its species' awakened form. */
  function AwakenMonster(s: Storage, m: MonsterInstance, awakened: Species, subtract: bool): (r: (Storage, MonsterInstance))
    ensures !subtract ==> r.0 == s
    ensures subtract ==> r.0 == Pay(s, m.species)
    ensures r.1 == m.(species := awakened)
  {
    (if subtract then Pay(s, m.species) else s, m.(species := awakened))
  }

  function Total(t: Tiers): int {
    t.high + t.mid + t.low
  }

  function StorageTotal(s: Storage): int {
    Total(s.magic) + Total(s.fire) + Total(s.water) + Total(s.wind) + Total(s.light) + Total(s.dark)
  }

  function MagicCost(c: AwakenCost): int {
    c.magicHigh + c.magicMid + c.magicLow
  }

  function EleCost(c: AwakenCost): int {
    c.eleHigh + c.eleMid + c.eleLow
  }

  /** Paying removes the magic cost, and the element cost for a normal
      element, from the whole storage; every element other than the
      monster's keeps its stock. */
  lemma PayTakesCost(s: Storage, sp: Species)
    ensures StorageTotal(Pay(s, sp)) == StorageTotal(s) - MagicCost(sp.awakenCost) - (if sp.element.Normal() then EleCost(sp.awakenCost) else 0)
    ensures forall e: Element :: e.Normal() && e != sp.element ==> Ele(Pay(s, sp), e) == Ele(s, e)
  {
    var r := Pay(s, sp);
    assert StorageTotal(r) == Total(r.magic) + Total(Ele(r, Fire)) + Total(Ele(r, Water)) + Total(Ele(r, Wind)) + Total(Ele(r, Light)) + Total(Ele(r, Dark));
    assert StorageTotal(s) == Total(s.magic) + Total(Ele(s, Fire)) + Total(Ele(s, Water)) + Total(Ele(s, Wind)) + Total(Ele(s, Light)) + Total(Ele(s, Dark));
    match sp.element
    case Fire =>
    case Water =>
    case Wind =>
    case Light =>
    case Dark =>
    case Pure =>
  }

  /** A pure monster's awakening leaves every element's essences alone. */
  lemma PurePaysMagicOnly(s: Storage, sp: Species)
    requires sp.element == Pure
    ensures Pay(s, sp) == s.(magic := Pay(s, sp).magic)
  {
  }

  /** Awakening two monsters of different elements pays each from its own
      element: the order does not matter. */
  lemma PayCommutes(s: Storage, a: Species, b: Species)
    ensures Pay(Pay(s, a), b) == Pay(Pay(s, b), a)
  {
    var ab := Pay(Pay(s, a), b);
    var ba := Pay(Pay(s, b), a);
    forall e: Element | e.Normal() ensures Ele(ab, e) == Ele(ba, e) {
    }
    assert ab.fire == Ele(ab, Fire) && ba.fire == Ele(ba, Fire);
    assert ab.water == Ele(ab, Water) && ba.water == Ele(ba, Water);
    assert ab.wind == Ele(ab, Wind) && ba.wind == Ele(ba, Wind);
    assert ab.light == Ele(ab, Light) && ba.light == Ele(ba, Light);
    assert ab.dark == Ele(ab, Dark) && ba.dark == Ele(ba, Dark);
  }
}
