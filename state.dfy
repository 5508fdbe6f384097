/** The per-player game state, the sector list and the default state a new pilot starts from. */
module State {
  import opened Wrappers
  import opened Catalog
  import opened Formulas

  datatype Resources = Resources(iron: real, plasma: real, crystal: real, dataBits: real, darkMatter: real)

  datatype Upgrades = Upgrades(pickaxePower: nat, autoMiners: nat, plasmaExtractors: nat,
                               crystalRefineries: nat, researchHubs: nat, storageLevel: nat)

  datatype SectorKind = Core | Frontier | Void | Nebula | Anomaly

  datatype Sector = Sector(id: string, name: string, kind: SectorKind, resourceMultiplier: real,
                           risk: nat, controlled: bool, minLevel: nat, deployedShips: Fleet)

  datatype Trend = Up | Down | Stable

  datatype PriceEntry = PriceEntry(price: real, prevPrice: real, trend: Trend)

  /** The market has exactly the three tradable resources. */
  datatype Market = Market(iron: PriceEntry, plasma: PriceEntry, crystal: PriceEntry)

  datatype Profile = Profile(callsign: string, motto: string, avatarId: string, joinedDate: int,
                             shieldUntil: Option<int>)

  datatype Stats = Stats(totalCreditsEarned: real, totalShipsBuilt: nat, sectorsLiberated: nat,
                         battlesWon: nat, battlesLost: nat)

  datatype Loot = Loot(iron: int, plasma: int, credits: int)

  datatype BattleReport = BattleReport(
    id: string, timestamp: int, attackerId: string, defenderId: string,
    attackerCallsign: string, defenderCallsign: string, won: bool, loot: Loot,
    attackerLosses: Fleet, defenderLosses: Fleet, narrative: string)

  datatype GameState = GameState(
    credits: real, xp: nat, level: nat, warPoints: int,
    resources: Resources, upgrades: Upgrades, fleet: Fleet, sectors: seq<Sector>,
    threatLevel: int, lastUpdate: int, market: Market, profile: Profile, stats: Stats,
    battleHistory: seq<BattleReport>)

  /** Why a command did nothing; Ok when it took effect. */
  datatype Status =
    | Ok
    | UnknownShip
    | NotEnoughResources
    | NotEnoughCredits
    | NoTarget
    | TargetNotFound
    | PowerTooLow
    | SectorUnavailable
    | NoShipToDeploy

  /** The state after a command, and whether it took effect. */
  datatype Outcome = Outcome(state: GameState, status: Status)

  /** The three resources the market trades. */
  datatype Commodity = Iron | Plasma | Crystal

  function Stock(r: Resources, c: Commodity): real
  {
    match c
    case Iron => r.iron
    case Plasma => r.plasma
    case Crystal => r.crystal
  }

  function WithStock(r: Resources, c: Commodity, v: real): (r': Resources)
    ensures Stock(r', c) == v
    ensures forall d :: d != c ==> Stock(r', d) == Stock(r, d)
    ensures r'.dataBits == r.dataBits && r'.darkMatter == r.darkMatter
  {
    match c
    case Iron => r.(iron := v)
    case Plasma => r.(plasma := v)
    case Crystal => r.(crystal := v)
  }

  function PriceOf(m: Market, c: Commodity): real
  {
    match c
    case Iron => m.iron.price
    case Plasma => m.plasma.price
    case Crystal => m.crystal.price
  }

  /** Stocks, balances and prices the rules keep non-negative, a start level of 1, leftover XP
      below the threshold and sector ids that identify one sector each. */
  ghost predicate Valid(s: GameState)
  {
    && s.credits >= 0.0
    && s.resources.iron >= 0.0 && s.resources.plasma >= 0.0 && s.resources.crystal >= 0.0
    && s.resources.dataBits >= 0.0 && s.resources.darkMatter >= 0.0
    && s.warPoints >= 0
    && s.level >= 1
    && s.xp < XPToNextLevel(s.level)
    && PriceOf(s.market, Iron) >= 0.0 && PriceOf(s.market, Plasma) >= 0.0 && PriceOf(s.market, Crystal) >= 0.0
    && SectorsValid(s.sectors)
  }

  ghost predicate SectorsValid(ss: seq<Sector>)
  {
    && (forall i :: 0 <= i < |ss| ==> ss[i].resourceMultiplier >= 0.0)
    && (forall i, j :: 0 <= i < j < |ss| ==> ss[i].id != ss[j].id)
  }

  /** Each of iron, plasma and crystal within the cap of the current storage level. */
  ghost predicate WithinStorage(s: GameState)
  {
    var cap := MaxStorage(s.upgrades.storageLevel);
    s.resources.iron <= cap && s.resources.plasma <= cap && s.resources.crystal <= cap
  }

  const NoShips: Fleet := map[Miner := 0, Defender := 0, Hauler := 0, Scout := 0, Cruiser := 0, Mothership := 0]

  /** The five sectors of the map; only the core sector starts controlled. */
  const Sectors: seq<Sector> := [
    Sector("s1", "Alfa Merkezi", Core, 1.0, 5, true, 1, NoShips),
    Sector("s2", "Asteroid Kuşağı", Nebula, 1.8, 15, false, 3, NoShips),
    Sector("s3", "Delta Sınırı", Frontier, 3.2, 30, false, 7, NoShips),
    Sector("s4", "Pulsar Bölgesi", Nebula, 5.5, 50, false, 12, NoShips),
    Sector("s5", "Omega Boşluğu", Void, 10.0, 80, false, 20, NoShips)
  ]

  /** The default state; `now` is the clock reading taken when it is built. */
  function Initial(now: int): (s: GameState)
    ensures Valid(s) && WithinStorage(s)
  {
    GameState(
      5000.0, 0, 1, 100,
      Resources(1000.0, 200.0, 50.0, 0.0, 0.0),
      Upgrades(1, 0, 0, 0, 0, 1),
      NoShips, Sectors, 10, now,
      Market(PriceEntry(2.5, 2.0, Up), PriceEntry(18.0, 15.0, Up), PriceEntry(55.0, 50.0, Up)),
      Profile("Bilinmeyen Amiral", "Yıldızlar rehberimiz olsun.", "shield", now,
              Some(now + 24 * 60 * 60 * 1000)),
      Stats(0.0, 0, 0, 0, 0),
      [])
  }
}
