/** The one-second production tick: auto-miners, mobile miners and controlled sectors add
    iron, plasma and crystal, each capped at the storage limit. */
module Production {
  import opened Catalog
  import opened Numbers
  import opened Formulas
  import opened State

  /** What one controlled sector adds per tick: multiplier * (5 per garrisoned miner + 2),
      raised by a fifth per garrisoned hauler. */
  function SectorYield(sec: Sector): (y: real)
    ensures sec.resourceMultiplier >= 0.0 ==> y >= 0.0
  {
    var base := (Count(sec.deployedShips, Miner) * 5 + 2) as real;
    var eff := 1.0 + Count(sec.deployedShips, Hauler) as real * 0.2;
    assert base >= 0.0 && eff >= 1.0;
    assert sec.resourceMultiplier >= 0.0 ==> sec.resourceMultiplier * base >= 0.0;
    sec.resourceMultiplier * base * eff
  }

  /** The controlled sectors, in order (the filter). */
  function Controlled(ss: seq<Sector>): (cs: seq<Sector>)
    ensures forall i :: 0 <= i < |cs| ==> cs[i].controlled && cs[i] in ss
  {
    if ss == [] then []
    else if ss[0].controlled then [ss[0]] + Controlled(ss[1..])
    else Controlled(ss[1..])
  }

  /** Sum of the yields of a list of sectors (the reduce). */
  function SumYields(ss: seq<Sector>): (y: real)
    ensures (forall i :: 0 <= i < |ss| ==> ss[i].resourceMultiplier >= 0.0) ==> y >= 0.0
  {
    if ss == [] then 0.0 else SectorYield(ss[0]) + SumYields(ss[1..])
  }

  /** The bonus of all controlled sectors. */
  function SectorBonus(ss: seq<Sector>): (b: real)
    ensures (forall i :: 0 <= i < |ss| ==> ss[i].resourceMultiplier >= 0.0) ==> b >= 0.0
  {
    SumYields(Controlled(ss))
  }

  /** Reference definition: every sector in the list, with uncontrolled ones counting zero. */
  function MaskedBonus(ss: seq<Sector>): real
  {
    if ss == [] then 0.0
    else (if ss[0].controlled then SectorYield(ss[0]) else 0.0) + MaskedBonus(ss[1..])
  }

  lemma {:induction false} SectorBonusIsMasked(ss: seq<Sector>)
    ensures SectorBonus(ss) == MaskedBonus(ss)
  {
    if ss != [] {
      SectorBonusIsMasked(ss[1..]);
      if ss[0].controlled {
        assert Controlled(ss) == [ss[0]] + Controlled(ss[1..]);
        assert ([ss[0]] + Controlled(ss[1..]))[1..] == Controlled(ss[1..]);
      }
    }
  }

  /** Iron per tick: 1.5 per auto-miner, 3 per miner in the fleet, plus the sector bonus. */
  function IronRate(s: GameState): (r: real)
    ensures (forall i :: 0 <= i < |s.sectors| ==> s.sectors[i].resourceMultiplier >= 0.0) ==>
      r >= s.upgrades.autoMiners as real * 1.5 && r >= SectorBonus(s.sectors) && r >= 0.0
  {
    s.upgrades.autoMiners as real * 1.5 + (Count(s.fleet, Miner) * 3) as real + SectorBonus(s.sectors)
  }

  /** Plasma per tick: a tenth of the fleet miners' iron, plus 5% of the sector bonus. */
  function PlasmaRate(s: GameState): (r: real)
    ensures (forall i :: 0 <= i < |s.sectors| ==> s.sectors[i].resourceMultiplier >= 0.0) ==>
      r >= 0.0
  {
    (Count(s.fleet, Miner) * 3) as real * 0.1 + SectorBonus(s.sectors) * 0.05
  }

  /** Crystal per tick: 2% of the sector bonus, so nothing without a controlled sector yield. */
  function CrystalRate(s: GameState): (r: real)
    ensures (forall i :: 0 <= i < |s.sectors| ==> s.sectors[i].resourceMultiplier >= 0.0) ==>
      r >= 0.0
  {
    SectorBonus(s.sectors) * 0.02
  }

  /** One production tick. */
  function Tick(s: GameState): (r: GameState)
    ensures r == s.(resources := r.resources)
    ensures r.resources.dataBits == s.resources.dataBits && r.resources.darkMatter == s.resources.darkMatter
    ensures WithinStorage(r)
    ensures r.resources.iron <= s.resources.iron + IronRate(s)
    ensures r.resources.iron == s.resources.iron + IronRate(s)
            || r.resources.iron == MaxStorage(s.upgrades.storageLevel)
    ensures r.resources.plasma <= s.resources.plasma + PlasmaRate(s)
    ensures r.resources.plasma == s.resources.plasma + PlasmaRate(s)
            || r.resources.plasma == MaxStorage(s.upgrades.storageLevel)
    ensures r.resources.crystal <= s.resources.crystal + CrystalRate(s)
    ensures r.resources.crystal == s.resources.crystal + CrystalRate(s)
            || r.resources.crystal == MaxStorage(s.upgrades.storageLevel)
  {
    var maxCap := MaxStorage(s.upgrades.storageLevel);
    s.(resources := s.resources.(
      iron := Min(maxCap, s.resources.iron + IronRate(s)),
      plasma := Min(maxCap, s.resources.plasma + PlasmaRate(s)),
      crystal := Min(maxCap, s.resources.crystal + CrystalRate(s))))
  }

  /** A tick never lowers a stock that is within the cap, and cuts one above it down to the cap. */
  lemma TickClamps(s: GameState)
    requires forall i :: 0 <= i < |s.sectors| ==> s.sectors[i].resourceMultiplier >= 0.0
    ensures var cap := MaxStorage(s.upgrades.storageLevel);
      && (s.resources.iron <= cap ==> s.resources.iron <= Tick(s).resources.iron)
      && (s.resources.plasma <= cap ==> s.resources.plasma <= Tick(s).resources.plasma)
      && (s.resources.crystal <= cap ==> s.resources.crystal <= Tick(s).resources.crystal)
      && (s.resources.iron > cap ==> Tick(s).resources.iron == cap)
      && (s.resources.plasma > cap ==> Tick(s).resources.plasma == cap)
      && (s.resources.crystal > cap ==> Tick(s).resources.crystal == cap)
  {
  }

  lemma TickKeepsValid(s: GameState)
    requires Valid(s)
    ensures Valid(Tick(s))
  {
  }

  /** `k` consecutive ticks. */
  function Ticks(s: GameState, k: nat): GameState
  {
    if k == 0 then s else Tick(Ticks(s, k - 1))
  }

  /** Ticks change nothing but iron, plasma and crystal; the rates therefore stay as they were. */
  lemma {:induction false} TicksFrame(s: GameState, k: nat)
    ensures Ticks(s, k) == s.(resources := Ticks(s, k).resources)
    ensures Ticks(s, k).resources.dataBits == s.resources.dataBits
    ensures Ticks(s, k).resources.darkMatter == s.resources.darkMatter
  {
    if k > 0 {
      TicksFrame(s, k - 1);
    }
  }

  /** What `k` ticks at a fixed rate add before the cap is applied. */
  function Accrued(k: nat, rate: real): real
  {
    k as real * rate
  }

  lemma {:induction false} TicksKeepRates(s: GameState, k: nat)
    ensures Ticks(s, k).upgrades == s.upgrades && Ticks(s, k).fleet == s.fleet && Ticks(s, k).sectors == s.sectors
  {
    if k > 0 {
      TicksKeepRates(s, k - 1);
    }
  }

  /** The per-tick rate of one commodity. */
  function Rate(s: GameState, c: Commodity): real
  {
    match c
    case Iron => IronRate(s)
    case Plasma => PlasmaRate(s)
    case Crystal => CrystalRate(s)
  }

  lemma TickExact(s: GameState, c: Commodity)
    ensures Stock(Tick(s).resources, c) == Min(MaxStorage(s.upgrades.storageLevel), Stock(s.resources, c) + Rate(s, c))
  {
  }

  /** The rates read only the upgrades, the fleet and the sectors. */
  lemma SameRate(s: GameState, t: GameState, c: Commodity)
    requires t.upgrades == s.upgrades && t.fleet == s.fleet && t.sectors == s.sectors
    ensures Rate(t, c) == Rate(s, c)
  {
  }

  /** The k-th tick adds the starting state's rate: earlier ticks left the rates alone. */
  lemma TickAfterTicks(s: GameState, c: Commodity, k: nat)
    requires k >= 1
    ensures Stock(Ticks(s, k).resources, c)
            == Min(MaxStorage(s.upgrades.storageLevel), Stock(Ticks(s, k - 1).resources, c) + Rate(s, c))
  {
    var t := Ticks(s, k - 1);
    assert Ticks(s, k) == Tick(t);
    TicksKeepRates(s, k - 1);
    SameRate(s, t, c);
    TickExact(t, c);
  }

  /** The capped recurrence, over plain numbers: one more capped step of `rate` after k - 1. */
  lemma CappedStep(cap: real, x: real, rate: real, k: nat, prev: real, next: real)
    requires x <= cap && rate >= 0.0 && k >= 1
    requires prev == Min(cap, x + Accrued(k - 1, rate))
    requires next == Min(cap, prev + rate)
    ensures next == Min(cap, x + Accrued(k, rate))
  {
    assert k as real * rate == (k - 1) as real * rate + rate;
    assert (k - 1) as real * rate >= 0.0;
  }

  /** One step of the closed form: if it holds after k - 1 ticks, it holds after k. */
  lemma TicksStep(s: GameState, c: Commodity, k: nat)
    requires forall i :: 0 <= i < |s.sectors| ==> s.sectors[i].resourceMultiplier >= 0.0
    requires WithinStorage(s) && k >= 1
    requires Stock(Ticks(s, k - 1).resources, c)
             == Min(MaxStorage(s.upgrades.storageLevel), Stock(s.resources, c) + Accrued(k - 1, Rate(s, c)))
    ensures Stock(Ticks(s, k).resources, c)
            == Min(MaxStorage(s.upgrades.storageLevel), Stock(s.resources, c) + Accrued(k, Rate(s, c)))
  {
    TickAfterTicks(s, c, k);
    assert Rate(s, c) >= 0.0;
    assert Stock(s.resources, c) <= MaxStorage(s.upgrades.storageLevel);
    CappedStep(MaxStorage(s.upgrades.storageLevel), Stock(s.resources, c), Rate(s, c), k,
                     Stock(Ticks(s, k - 1).resources, c), Stock(Ticks(s, k).resources, c));
  }

  /** After k ticks from a state within the cap each stock is min(cap, stock + k * rate). */
  lemma {:induction false} TicksClosedForm(s: GameState, c: Commodity, k: nat)
    requires forall i :: 0 <= i < |s.sectors| ==> s.sectors[i].resourceMultiplier >= 0.0
    requires WithinStorage(s)
    ensures Stock(Ticks(s, k).resources, c)
            == Min(MaxStorage(s.upgrades.storageLevel), Stock(s.resources, c) + Accrued(k, Rate(s, c)))
  {
    if k == 0 {
      assert Accrued(0, Rate(s, c)) == 0.0;
    } else {
      TicksClosedForm(s, c, k - 1);
      TicksStep(s, c, k);
    }
  }

  lemma {:induction false} NoneControlled(ss: seq<Sector>)
    requires forall i :: 0 <= i < |ss| ==> !ss[i].controlled
    ensures Controlled(ss) == []
  {
    if ss != [] {
      NoneControlled(ss[1..]);
    }
  }

  /** The default state yields 2 iron, 0.1 plasma and 0.04 crystal per tick (core sector only),
      so ten ticks raise iron from 1000 to 1020. */
  lemma InitialTenTicks(now: int)
    ensures Ticks(Initial(now), 10).resources.iron == 1020.0
    ensures Ticks(Initial(now), 10).resources.plasma == 201.0
    ensures Ticks(Initial(now), 10).resources.crystal == 50.4
  {
    var s := Initial(now);
    assert Count(NoShips, Miner) == 0 && Count(NoShips, Hauler) == 0;
    assert SectorYield(Sectors[0]) == 2.0;
    NoneControlled(Sectors[1..]);
    assert Controlled(Sectors) == [Sectors[0]];
    assert SumYields([Sectors[0]]) == 2.0;
    assert SectorBonus(s.sectors) == 2.0;
    assert IronRate(s) == 2.0 && PlasmaRate(s) == 0.1 && CrystalRate(s) == 0.04;
    TicksClosedForm(s, Iron, 10);
    TicksClosedForm(s, Plasma, 10);
    TicksClosedForm(s, Crystal, 10);
    assert Accrued(10, 0.1) == 1.0 && Accrued(10, 0.04) == 0.4;
  }
}
