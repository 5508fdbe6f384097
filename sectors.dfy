/** The sector map: capturing a sector with enough war power, and garrisoning miners and
    haulers in a controlled sector. */
module Sectors {
  import opened Wrappers
  import opened Catalog
  import opened State
  import opened Progression
  import opened Production

  /** The position of the first sector with id `id` (Array.find). */
  function FindSector(ss: seq<Sector>, id: string): (o: Option<nat>)
    ensures o.Some? ==> o.value < |ss| && ss[o.value].id == id && forall j :: 0 <= j < o.value ==> ss[j].id != id
    ensures o.None? ==> forall j :: 0 <= j < |ss| ==> ss[j].id != id
  {
    if ss == [] then None
    else if ss[0].id == id then Some(0)
    else match FindSector(ss[1..], id)
      case None => None
      case Some(k) => Some(k + 1)
  }

  /** Every sector with id `id` marked controlled (the map over the sector list). */
  function MarkControlled(ss: seq<Sector>, id: string): (r: seq<Sector>)
    ensures |r| == |ss|
    ensures forall i :: 0 <= i < |ss| ==> r[i].controlled == (ss[i].controlled || ss[i].id == id)
    ensures forall i :: 0 <= i < |ss| ==> r[i] == ss[i].(controlled := r[i].controlled)
  {
    seq(|ss|, i requires 0 <= i < |ss| => if ss[i].id == id then ss[i].(controlled := true) else ss[i])
  }

  /** The war power a sector demands: ten per point of risk. */
  function RequiredPower(sec: Sector): nat
  {
    sec.risk * 10
  }

  /** captureSector: a missing or already controlled sector is ignored; otherwise the fleet's
      power must reach the sector's requirement, and the capture awards 50 XP per point of risk. */
  function Capture(s: GameState, sectorId: string): (r: Outcome)
    ensures r.status != Ok ==> r.state == s
    ensures r.status == Ok <==>
      && FindSector(s.sectors, sectorId).Some?
      && !s.sectors[FindSector(s.sectors, sectorId).value].controlled
      && Power(s.fleet) >= RequiredPower(s.sectors[FindSector(s.sectors, sectorId).value])
    ensures r.status == PowerTooLow <==>
      && FindSector(s.sectors, sectorId).Some?
      && !s.sectors[FindSector(s.sectors, sectorId).value].controlled
      && Power(s.fleet) < RequiredPower(s.sectors[FindSector(s.sectors, sectorId).value])
    ensures r.status == Ok ==>
      var sec := s.sectors[FindSector(s.sectors, sectorId).value];
      && |r.state.sectors| == |s.sectors|
      && (forall i :: 0 <= i < |s.sectors| ==>
            r.state.sectors[i] == s.sectors[i].(controlled := s.sectors[i].controlled || s.sectors[i].id == sectorId))
      && TotalXP(r.state) == TotalXP(s) + sec.risk * 50
      && r.state == s.(sectors := r.state.sectors, xp := r.state.xp, level := r.state.level)
    ensures Valid(s) ==> Valid(r.state)
  {
    match FindSector(s.sectors, sectorId)
    case None => Outcome(s, SectorUnavailable)
    case Some(k) =>
      var sec := s.sectors[k];
      if sec.controlled then Outcome(s, SectorUnavailable)
      else if Power(s.fleet) < RequiredPower(sec) then Outcome(s, PowerTooLow)
      else Outcome(AwardXP(s.(sectors := MarkControlled(s.sectors, sectorId)), sec.risk * 50), Ok)
  }

  /** The verdict of a capture does not depend on the pilot's level: the sector's minimum
      level is never consulted. */
  lemma CaptureIgnoresLevel(s: GameState, sectorId: string, xp: nat, level: nat)
    ensures Capture(s.(xp := xp, level := level), sectorId).status == Capture(s, sectorId).status
  {
  }

  /** A level-1 pilot with two cruisers (240 power) takes the asteroid belt, whose minimum
      level is 3. */
  lemma CaptureBelowMinLevel(now: int)
    ensures var s := Initial(now).(fleet := NoShips[Cruiser := 2]);
      && s.level < s.sectors[1].minLevel
      && Capture(s, "s2").status == Ok
  {
    var s := Initial(now).(fleet := NoShips[Cruiser := 2]);
    PowerClosedForm(s.fleet);
    assert Power(s.fleet) == 240;
    assert s.sectors[0].id != "s2";
    assert FindSector(s.sectors, "s2") == Some(1);
  }

  /** With unique ids, marking the one uncontrolled sector with id `id` adds exactly its yield. */
  lemma {:induction false} MarkAddsYield(ss: seq<Sector>, id: string, k: nat)
    requires forall i, j :: 0 <= i < j < |ss| ==> ss[i].id != ss[j].id
    requires k < |ss| && ss[k].id == id && !ss[k].controlled
    ensures MaskedBonus(MarkControlled(ss, id)) == MaskedBonus(ss) + SectorYield(ss[k])
  {
    var m := MarkControlled(ss, id);
    assert m[1..] == MarkControlled(ss[1..], id);
    if k == 0 {
      assert MarkControlled(ss[1..], id) == ss[1..];
    } else {
      assert ss[0].id != id;
      MarkAddsYield(ss[1..], id, k - 1);
    }
  }

  /** Capturing a sector adds that sector's yield to the sector bonus, and so to every rate. */
  lemma CaptureAddsYield(s: GameState, sectorId: string)
    requires Valid(s) && Capture(s, sectorId).status == Ok
    ensures var sec := s.sectors[FindSector(s.sectors, sectorId).value];
      SectorBonus(Capture(s, sectorId).state.sectors) == SectorBonus(s.sectors) + SectorYield(sec)
  {
    var k := FindSector(s.sectors, sectorId).value;
    var r := Capture(s, sectorId).state;
    assert r.sectors == MarkControlled(s.sectors, sectorId);
    MarkAddsYield(s.sectors, sectorId, k);
    SectorBonusIsMasked(s.sectors);
    SectorBonusIsMasked(r.sectors);
  }

  /** One more ship of type `t` in every sector with id `id` (the map of the deploy handlers). */
  function Garrison(ss: seq<Sector>, id: string, t: ShipType): (r: seq<Sector>)
    ensures |r| == |ss|
    ensures forall i :: 0 <= i < |ss| ==> r[i] == ss[i].(deployedShips := r[i].deployedShips)
    ensures forall i :: 0 <= i < |ss| ==>
      Count(r[i].deployedShips, t) == Count(ss[i].deployedShips, t) + (if ss[i].id == id then 1 else 0)
    ensures forall i, u :: 0 <= i < |ss| && u != t ==> Count(r[i].deployedShips, u) == Count(ss[i].deployedShips, u)
  {
    seq(|ss|, i requires 0 <= i < |ss| =>
      if ss[i].id == id
      then ss[i].(deployedShips := ss[i].deployedShips[t := Count(ss[i].deployedShips, t) + 1])
      else ss[i])
  }

  /** The deploy handlers: move one miner or hauler from the fleet into the sector's garrison.
      The sector is one the map shows as controlled; the handler itself checks only the fleet. */
  function Deploy(s: GameState, sectorId: string, t: ShipType): (r: Outcome)
    requires t == Miner || t == Hauler
    ensures r.status != Ok ==> r.state == s && r.status == NoShipToDeploy
    ensures r.status == Ok <==> Count(s.fleet, t) >= 1
    ensures r.status == Ok ==>
      && Count(r.state.fleet, t) == Count(s.fleet, t) - 1
      && (forall u :: u != t ==> Count(r.state.fleet, u) == Count(s.fleet, u))
      && |r.state.sectors| == |s.sectors|
      && (forall i :: 0 <= i < |s.sectors| ==>
            && r.state.sectors[i] == s.sectors[i].(deployedShips := r.state.sectors[i].deployedShips)
            && Count(r.state.sectors[i].deployedShips, t)
               == Count(s.sectors[i].deployedShips, t) + (if s.sectors[i].id == sectorId then 1 else 0)
            && (forall u :: u != t ==>
                  Count(r.state.sectors[i].deployedShips, u) == Count(s.sectors[i].deployedShips, u)))
      && r.state == s.(fleet := r.state.fleet, sectors := r.state.sectors)
    ensures Valid(s) ==> Valid(r.state)
  {
    if Count(s.fleet, t) < 1 then Outcome(s, NoShipToDeploy)
    else Outcome(s.(fleet := s.fleet[t := Count(s.fleet, t) - 1], sectors := Garrison(s.sectors, sectorId, t)), Ok)
  }

  /** Ships of type `t` stationed over all sectors. */
  function Garrisoned(ss: seq<Sector>, t: ShipType): nat
  {
    if ss == [] then 0 else Count(ss[0].deployedShips, t) + Garrisoned(ss[1..], t)
  }

  /** The number of sectors with id `id`. */
  function Matching(ss: seq<Sector>, id: string): nat
  {
    if ss == [] then 0 else (if ss[0].id == id then 1 else 0) + Matching(ss[1..], id)
  }

  /** The garrison of type `t` grows by one per matching sector; other types stay. */
  lemma {:induction false} GarrisonCounts(ss: seq<Sector>, id: string, t: ShipType, u: ShipType)
    ensures Garrisoned(Garrison(ss, id, t), u) == Garrisoned(ss, u) + (if u == t then Matching(ss, id) else 0)
  {
    if ss != [] {
      assert Garrison(ss, id, t)[1..] == Garrison(ss[1..], id, t);
      GarrisonCounts(ss[1..], id, t, u);
    }
  }

  /** With unique ids, an id that is present matches exactly one sector. */
  lemma {:induction false} MatchingUnique(ss: seq<Sector>, id: string, k: nat)
    requires forall i, j :: 0 <= i < j < |ss| ==> ss[i].id != ss[j].id
    requires k < |ss| && ss[k].id == id
    ensures Matching(ss, id) == 1
  {
    if k == 0 {
      NoneMatching(ss[1..], id);
    } else {
      assert ss[0].id != id;
      MatchingUnique(ss[1..], id, k - 1);
    }
  }

  lemma {:induction false} NoneMatching(ss: seq<Sector>, id: string)
    requires forall i :: 0 <= i < |ss| ==> ss[i].id != id
    ensures Matching(ss, id) == 0
  {
    if ss != [] {
      NoneMatching(ss[1..], id);
    }
  }

  /** Deploying into a sector that exists moves a ship without creating or losing one: fleet
      plus garrison is the same for every type. */
  lemma DeployConserves(s: GameState, sectorId: string, t: ShipType, u: ShipType)
    requires t == Miner || t == Hauler
    requires SectorsValid(s.sectors) && FindSector(s.sectors, sectorId).Some?
    ensures var r := Deploy(s, sectorId, t).state;
      Count(r.fleet, u) + Garrisoned(r.sectors, u) == Count(s.fleet, u) + Garrisoned(s.sectors, u)
  {
    if Count(s.fleet, t) >= 1 {
      GarrisonCounts(s.sectors, sectorId, t, u);
      MatchingUnique(s.sectors, sectorId, FindSector(s.sectors, sectorId).value);
    }
  }

  /** A garrisoned miner adds five units of the multiplier, raised by the hauler bonus. */
  lemma MinerYield(sec: Sector)
    ensures SectorYield(sec.(deployedShips := sec.deployedShips[Miner := Count(sec.deployedShips, Miner) + 1]))
            == SectorYield(sec) + sec.resourceMultiplier * 5.0 * (1.0 + Count(sec.deployedShips, Hauler) as real * 0.2)
  {
    var m := sec.resourceMultiplier;
    var n := Count(sec.deployedShips, Miner) as real;
    var e := 1.0 + Count(sec.deployedShips, Hauler) as real * 0.2;
    assert m * ((n + 1.0) * 5.0 + 2.0) * e == m * (n * 5.0 + 2.0) * e + m * 5.0 * e;
  }

  /** A garrisoned hauler adds a fifth of the sector's un-raised yield. */
  lemma HaulerYield(sec: Sector)
    ensures SectorYield(sec.(deployedShips := sec.deployedShips[Hauler := Count(sec.deployedShips, Hauler) + 1]))
            == SectorYield(sec) + sec.resourceMultiplier * (Count(sec.deployedShips, Miner) * 5 + 2) as real * 0.2
  {
    var m := sec.resourceMultiplier;
    var b := (Count(sec.deployedShips, Miner) * 5 + 2) as real;
    var h := Count(sec.deployedShips, Hauler) as real;
    assert m * b * (1.0 + (h + 1.0) * 0.2) == m * b * (1.0 + h * 0.2) + m * b * 0.2;
  }
}
