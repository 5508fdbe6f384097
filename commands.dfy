/** Player commands on the own state: build a ship, buy an upgrade, send a signal, and trade
    100 units with the market. Each rejected command leaves the state as it was. */
module Commands {
  import opened Wrappers
  import opened Catalog
  import opened Formulas
  import opened State
  import opened Progression
  import opened Production

  /** Holdings cover every component of a cost. */
  predicate CanAfford(s: GameState, c: Cost)
  {
    && s.credits >= c.credits as real
    && s.resources.iron >= c.iron as real
    && s.resources.plasma >= c.plasma as real
    && s.resources.crystal >= c.crystal as real
  }

  /** buildShip: debit the cost, add one ship, award five XP per point of power. */
  function BuildShip(s: GameState, shipId: string): (r: Outcome)
    ensures r.status != Ok ==> r.state == s
    ensures r.status == Ok <==> Find(shipId).Some? && CanAfford(s, Entry(Find(shipId).value).cost)
    ensures Find(shipId).None? ==> r.status == UnknownShip
    ensures r.status == Ok ==>
      var t := Find(shipId).value;
      var c := Entry(t).cost;
      && r.state.credits == s.credits - c.credits as real
      && r.state.resources == s.resources.(iron := s.resources.iron - c.iron as real,
                                            plasma := s.resources.plasma - c.plasma as real,
                                            crystal := s.resources.crystal - c.crystal as real)
      && Count(r.state.fleet, t) == Count(s.fleet, t) + 1
      && (forall u :: u != t ==> Count(r.state.fleet, u) == Count(s.fleet, u))
      && TotalXP(r.state) == TotalXP(s) + Entry(t).power * 5
      && r.state.level >= s.level
      && r.state == s.(credits := r.state.credits, resources := r.state.resources, fleet := r.state.fleet,
                       xp := r.state.xp, level := r.state.level)
    ensures Valid(s) ==> Valid(r.state)
  {
    match Find(shipId)
    case None => Outcome(s, UnknownShip)
    case Some(t) =>
      var c := Entry(t).cost;
      if !CanAfford(s, c) then Outcome(s, NotEnoughResources)
      else
        var paid := s.(
          credits := s.credits - c.credits as real,
          resources := s.resources.(iron := s.resources.iron - c.iron as real,
                                    plasma := s.resources.plasma - c.plasma as real,
                                    crystal := s.resources.crystal - c.crystal as real),
          fleet := s.fleet[t := Count(s.fleet, t) + 1]);
        Outcome(AwardXP(paid, Entry(t).power * 5), Ok)
  }

  /** The six upgrade tracks. */
  datatype UpgradeKind = PickaxePower | AutoMiners | PlasmaExtractors | CrystalRefineries | ResearchHubs | StorageLevel

  function UpgradeLevel(u: Upgrades, k: UpgradeKind): nat
  {
    match k
    case PickaxePower => u.pickaxePower
    case AutoMiners => u.autoMiners
    case PlasmaExtractors => u.plasmaExtractors
    case CrystalRefineries => u.crystalRefineries
    case ResearchHubs => u.researchHubs
    case StorageLevel => u.storageLevel
  }

  function RaiseLevel(u: Upgrades, k: UpgradeKind): (u': Upgrades)
    ensures UpgradeLevel(u', k) == UpgradeLevel(u, k) + 1
    ensures forall j :: j != k ==> UpgradeLevel(u', j) == UpgradeLevel(u, j)
  {
    match k
    case PickaxePower => u.(pickaxePower := u.pickaxePower + 1)
    case AutoMiners => u.(autoMiners := u.autoMiners + 1)
    case PlasmaExtractors => u.(plasmaExtractors := u.plasmaExtractors + 1)
    case CrystalRefineries => u.(crystalRefineries := u.crystalRefineries + 1)
    case ResearchHubs => u.(researchHubs := u.researchHubs + 1)
    case StorageLevel => u.(storageLevel := u.storageLevel + 1)
  }

  /** Price of the next level: only storage and auto-miners have a price; the other tracks cost 0. */
  function UpgradeCost(u: Upgrades, k: UpgradeKind): (c: int)
    ensures c >= 0
    ensures k == StorageLevel ==> c == StorageUpgradeCost(u.storageLevel)
    ensures k == AutoMiners ==> c == AutoMinerCost(u.autoMiners)
    ensures k != StorageLevel && k != AutoMiners ==> c == 0
  {
    if k == StorageLevel then StorageUpgradeCost(u.storageLevel)
    else if k == AutoMiners then AutoMinerCost(u.autoMiners)
    else 0
  }

  /** handleUpgrade: pay the price, raise one track by one, award 100 XP. */
  function Upgrade(s: GameState, k: UpgradeKind): (r: Outcome)
    ensures r.status != Ok ==> r.state == s && r.status == NotEnoughCredits
    ensures r.status == Ok <==> s.credits >= UpgradeCost(s.upgrades, k) as real
    ensures r.status == Ok ==>
      && r.state.credits == s.credits - UpgradeCost(s.upgrades, k) as real
      && UpgradeLevel(r.state.upgrades, k) == UpgradeLevel(s.upgrades, k) + 1
      && (forall j :: j != k ==> UpgradeLevel(r.state.upgrades, j) == UpgradeLevel(s.upgrades, j))
      && TotalXP(r.state) == TotalXP(s) + 100
      && r.state.level >= s.level
      && r.state == s.(credits := r.state.credits, upgrades := r.state.upgrades,
                       xp := r.state.xp, level := r.state.level)
    ensures Valid(s) ==> Valid(r.state)
  {
    var cost := UpgradeCost(s.upgrades, k);
    if s.credits < cost as real then Outcome(s, NotEnoughCredits)
    else
      var paid := s.(credits := s.credits - cost as real, upgrades := RaiseLevel(s.upgrades, k));
      Outcome(AwardXP(paid, 100), Ok)
  }

  /** A storage upgrade raises the cap by exactly 5000 units. */
  lemma StorageUpgradeRaisesCap(s: GameState)
    requires Upgrade(s, StorageLevel).status == Ok
    ensures MaxStorage(Upgrade(s, StorageLevel).state.upgrades.storageLevel)
            == MaxStorage(s.upgrades.storageLevel) + 5000.0
  {
    var r := Upgrade(s, StorageLevel).state;
    assert UpgradeLevel(r.upgrades, StorageLevel) == UpgradeLevel(s.upgrades, StorageLevel) + 1;
    MaxStorageIncreasing(s.upgrades.storageLevel);
  }

  /** An auto-miner adds exactly 1.5 iron per tick and leaves the other rates alone. */
  lemma AutoMinerRaisesIron(s: GameState)
    requires Upgrade(s, AutoMiners).status == Ok
    ensures var r := Upgrade(s, AutoMiners).state;
      && IronRate(r) == IronRate(s) + 1.5
      && PlasmaRate(r) == PlasmaRate(s)
      && CrystalRate(r) == CrystalRate(s)
  {
    var r := Upgrade(s, AutoMiners).state;
    assert UpgradeLevel(r.upgrades, AutoMiners) == UpgradeLevel(s.upgrades, AutoMiners) + 1;
    assert r.fleet == s.fleet && r.sectors == s.sectors;
    assert r.upgrades.autoMiners as real * 1.5 == s.upgrades.autoMiners as real * 1.5 + 1.5;
  }

  /** A new miner in the fleet adds exactly 3 iron and 0.3 plasma per tick; crystal comes only
      from sectors and stays. */
  lemma MinerRaisesRates(s: GameState)
    requires BuildShip(s, "miner").status == Ok
    ensures var r := BuildShip(s, "miner").state;
      && IronRate(r) == IronRate(s) + 3.0
      && PlasmaRate(r) == PlasmaRate(s) + 0.3
      && CrystalRate(r) == CrystalRate(s)
  {
    FindById(Miner);
    var r := BuildShip(s, "miner").state;
    assert Count(r.fleet, Miner) == Count(s.fleet, Miner) + 1;
    assert r.upgrades == s.upgrades && r.sectors == s.sectors;
  }

  /** The signal button: 50 credits and 10 XP, always. */
  function SendSignal(s: GameState): (r: GameState)
    ensures r.credits == s.credits + 50.0
    ensures TotalXP(r) == TotalXP(s) + 10
    ensures r == s.(credits := r.credits, xp := r.xp, level := r.level)
    ensures Valid(s) ==> Valid(r)
  {
    AwardXP(s.(credits := s.credits + 50.0), 10)
  }

  datatype TradeAction = Buy | Sell

  /** Units moved by one trade. */
  const TradeAmount: real := 100.0

  /** handleTrade: 100 units at the current price, against credits. */
  function Trade(s: GameState, c: Commodity, action: TradeAction): (r: Outcome)
    ensures r.status != Ok ==> r.state == s
    ensures action == Buy ==> (r.status == Ok <==> s.credits >= PriceOf(s.market, c) * TradeAmount)
    ensures action == Buy && r.status != Ok ==> r.status == NotEnoughCredits
    ensures action == Sell ==> (r.status == Ok <==> Stock(s.resources, c) >= TradeAmount)
    ensures action == Sell && r.status != Ok ==> r.status == NotEnoughResources
    ensures r.status == Ok ==>
      var value := PriceOf(s.market, c) * TradeAmount;
      var sign := if action == Buy then 1.0 else -1.0;
      && r.state.credits == s.credits - sign * value
      && Stock(r.state.resources, c) == Stock(s.resources, c) + sign * TradeAmount
      && (forall d :: d != c ==> Stock(r.state.resources, d) == Stock(s.resources, d))
      && r.state.resources.dataBits == s.resources.dataBits
      && r.state.resources.darkMatter == s.resources.darkMatter
      && r.state == s.(credits := r.state.credits, resources := r.state.resources)
    ensures Valid(s) ==> Valid(r.state)
  {
    var price := PriceOf(s.market, c);
    var cost := price * TradeAmount;
    var stock := Stock(s.resources, c);
    match action
    case Buy =>
      if s.credits >= cost then
        Outcome(s.(credits := s.credits - cost, resources := WithStock(s.resources, c, stock + TradeAmount)), Ok)
      else Outcome(s, NotEnoughCredits)
    case Sell =>
      if stock >= TradeAmount then
        assert Valid(s) ==> cost >= 0.0;
        Outcome(s.(credits := s.credits + cost, resources := WithStock(s.resources, c, stock - TradeAmount)), Ok)
      else Outcome(s, NotEnoughResources)
  }

  /** handleTrade as written: a copy of the state whose credits and stock are updated in turn. */
  method HandleTrade(s: GameState, c: Commodity, action: TradeAction) returns (r: Outcome)
    ensures r == Trade(s, c, action)
  {
    var price := PriceOf(s.market, c);
    var amount := TradeAmount;
    var ns := s;
    var status := Ok;
    if action == Buy {
      if s.credits >= price * amount {
        ns := ns.(credits := ns.credits - price * amount);
        ns := ns.(resources := WithStock(ns.resources, c, Stock(ns.resources, c) + amount));
      } else {
        status := NotEnoughCredits;
      }
    } else {
      if Stock(s.resources, c) >= amount {
        ns := ns.(credits := ns.credits + price * amount);
        ns := ns.(resources := WithStock(ns.resources, c, Stock(ns.resources, c) - amount));
      } else {
        status := NotEnoughResources;
      }
    }
    r := Outcome(ns, status);
  }

  /** Selling back what was just bought restores the state exactly, and so does buying back
      what was just sold. */
  lemma TradeRoundTrip(s: GameState, c: Commodity)
    requires Valid(s)
    ensures Trade(s, c, Buy).status == Ok ==>
      Trade(Trade(s, c, Buy).state, c, Sell) == Outcome(s, Ok)
    ensures Trade(s, c, Sell).status == Ok ==>
      Trade(Trade(s, c, Sell).state, c, Buy) == Outcome(s, Ok)
  {
    var price := PriceOf(s.market, c);
    var b := Trade(s, c, Buy);
    if b.status == Ok {
      assert WithStock(WithStock(s.resources, c, Stock(s.resources, c) + TradeAmount), c,
                       Stock(s.resources, c) + TradeAmount - TradeAmount) == s.resources;
    }
    var t := Trade(s, c, Sell);
    if t.status == Ok {
      assert WithStock(WithStock(s.resources, c, Stock(s.resources, c) - TradeAmount), c,
                       Stock(s.resources, c) - TradeAmount + TradeAmount) == s.resources;
    }
  }

  /** Credits plus the market value of the traded stock are the same before and after a trade. */
  lemma TradeKeepsMarketValue(s: GameState, c: Commodity, action: TradeAction)
    ensures var r := Trade(s, c, action).state;
      r.credits + PriceOf(r.market, c) * Stock(r.resources, c)
      == s.credits + PriceOf(s.market, c) * Stock(s.resources, c)
  {
    var r := Trade(s, c, action);
    var p := PriceOf(s.market, c);
    if r.status == Ok {
      if action == Buy {
        assert p * (Stock(s.resources, c) + TradeAmount) == p * Stock(s.resources, c) + p * TradeAmount;
      } else {
        assert p * (Stock(s.resources, c) - TradeAmount) == p * Stock(s.resources, c) - p * TradeAmount;
      }
    }
  }

  /** Buying is not capped by storage: a full store still buys, and holds more than the cap
      until the next production tick cuts it back. */
  lemma BuyIgnoresStorage(now: int)
    ensures var s := Initial(now).(resources := Initial(now).resources.(iron := MaxStorage(1)));
      && Trade(s, Iron, Buy).status == Ok
      && Trade(s, Iron, Buy).state.resources.iron > MaxStorage(s.upgrades.storageLevel)
  {
  }
}
