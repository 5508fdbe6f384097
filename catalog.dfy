/** The fixed ship catalogue (SHIP_TYPES) and fleet power. */
module Catalog {
  import opened Wrappers

  datatype ShipType = Scout | Miner | Defender | Hauler | Cruiser | Mothership

  /** Per-unit build cost. */
  datatype Cost = Cost(credits: nat, iron: nat, plasma: nat, crystal: nat)

  datatype Ship = Ship(id: string, cost: Cost, power: nat)

  /** A fleet or a garrison: ship type to count; a missing entry means zero. */
  type Fleet = map<ShipType, nat>

  /** The catalogue entry of each type. */
  function Entry(t: ShipType): Ship
  {
    match t
    case Scout => Ship("scout", Cost(500, 200, 0, 0), 2)
    case Miner => Ship("miner", Cost(1500, 800, 200, 50), 8)
    case Defender => Ship("defender", Cost(3000, 1500, 500, 150), 25)
    case Hauler => Ship("hauler", Cost(2500, 1000, 150, 200), 5)
    case Cruiser => Ship("cruiser", Cost(8000, 4000, 2000, 800), 120)
    case Mothership => Ship("mothership", Cost(35000, 15000, 8000, 3000), 650)
  }

  /** The catalogue in its declared order. */
  const Types: seq<ShipType> := [Scout, Miner, Defender, Hauler, Cruiser, Mothership]

  lemma TypesComplete(t: ShipType)
    ensures t in Types
  {
  }

  /** Where a type sits in the catalogue. */
  function Position(t: ShipType): (k: nat)
    ensures k < |Types| && Types[k] == t
  {
    match t
    case Scout => 0
    case Miner => 1
    case Defender => 2
    case Hauler => 3
    case Cruiser => 4
    case Mothership => 5
  }

  /** Linear search for the first type in `ts` whose id is `id`. */
  function FindIn(ts: seq<ShipType>, id: string): (r: Option<ShipType>)
    ensures r.Some? ==> r.value in ts && Entry(r.value).id == id
    ensures r.None? ==> forall k :: 0 <= k < |ts| ==> Entry(ts[k]).id != id
  {
    if ts == [] then None
    else if Entry(ts[0]).id == id then Some(ts[0])
    else FindIn(ts[1..], id)
  }

  /** The catalogue lookup by id; None for an id the catalogue does not know. */
  function Find(id: string): (r: Option<ShipType>)
    ensures r.Some? ==> Entry(r.value).id == id
    ensures r.None? ==> forall t: ShipType :: Entry(t).id != id
  {
    FindIn(Types, id)
  }

  /** Ids are distinct, so looking up a type's own id finds that type. */
  lemma FindById(t: ShipType)
    ensures Find(Entry(t).id) == Some(t)
  {
    var r := Find(Entry(t).id);
    assert r.Some? && Entry(r.value).id == Entry(t).id;
  }

  function Count(f: Fleet, t: ShipType): nat
  {
    if t in f then f[t] else 0
  }

  /** Sum of count times unit power over `ts`, accumulated from the left. */
  function PowerOver(f: Fleet, ts: seq<ShipType>): (r: nat)
    ensures forall k :: 0 <= k < |ts| ==> Count(f, ts[k]) * Entry(ts[k]).power <= r
    ensures (forall k :: 0 <= k < |ts| ==> Count(f, ts[k]) == 0) ==> r == 0
  {
    if ts == [] then 0
    else PowerOver(f, ts[..|ts| - 1]) + Count(f, ts[|ts| - 1]) * Entry(ts[|ts| - 1]).power
  }

  /** The combat power of a fleet (calcPower): every type adds at least its count times its
      unit power, and the power is zero exactly when the fleet has no ships. */
  function Power(f: Fleet): (r: nat)
    ensures forall t :: Count(f, t) * Entry(t).power <= r
    ensures r == 0 <==> forall t :: Count(f, t) == 0
  {
    var r := PowerOver(f, Types);
    forall t ensures Count(f, t) * Entry(t).power <= r {
      assert Types[Position(t)] == t;
    }
    forall t | r == 0 ensures Count(f, t) == 0 {
      assert Entry(t).power >= 1;
      assert Count(f, t) <= Count(f, t) * Entry(t).power;
    }
    r
  }

  lemma PowerClosedForm(f: Fleet)
    ensures Power(f) == 2 * Count(f, Scout) + 8 * Count(f, Miner) + 25 * Count(f, Defender)
                        + 5 * Count(f, Hauler) + 120 * Count(f, Cruiser) + 650 * Count(f, Mothership)
  {
    var t5, t4, t3, t2, t1 := Types[..5], Types[..4], Types[..3], Types[..2], Types[..1];
    assert t5 == Types[..5][..4 + 1] && t5[..4] == t4;
    assert t4[..3] == t3 && t3[..2] == t2 && t2[..1] == t1 && t1[..0] == [];
    calc {
      Power(f);
      PowerOver(f, t5) + Count(f, Mothership) * 650;
      PowerOver(f, t4) + Count(f, Cruiser) * 120 + Count(f, Mothership) * 650;
      PowerOver(f, t3) + Count(f, Hauler) * 5 + Count(f, Cruiser) * 120 + Count(f, Mothership) * 650;
      PowerOver(f, t2) + Count(f, Defender) * 25 + Count(f, Hauler) * 5 + Count(f, Cruiser) * 120
        + Count(f, Mothership) * 650;
      PowerOver(f, t1) + Count(f, Miner) * 8 + Count(f, Defender) * 25 + Count(f, Hauler) * 5
        + Count(f, Cruiser) * 120 + Count(f, Mothership) * 650;
    }
  }

  lemma {:induction false} PowerOverMonotone(f: Fleet, g: Fleet, ts: seq<ShipType>)
    requires forall t :: Count(f, t) <= Count(g, t)
    ensures PowerOver(f, ts) <= PowerOver(g, ts)
  {
    if ts != [] {
      var t := ts[|ts| - 1];
      PowerOverMonotone(f, g, ts[..|ts| - 1]);
      MulMonotone(Count(f, t), Count(g, t), Entry(t).power);
    }
  }

  lemma MulMonotone(a: nat, b: nat, k: nat)
    requires a <= b
    ensures a * k <= b * k
  {
  }

  /** A fleet that has no more of any type than another has no more power. */
  lemma PowerMonotone(f: Fleet, g: Fleet)
    requires forall t :: Count(f, t) <= Count(g, t)
    ensures Power(f) <= Power(g)
  {
    PowerOverMonotone(f, g, Types);
  }
}
