/** Battle resolution between the player's state and a target player's state (handleAttack):
    power, win chance, attrition, loot and the two resulting states. The random draw, the
    clock reading, the report id and the narration text come in as parameters. */
module Combat {
  import opened Wrappers
  import opened Catalog
  import opened Numbers
  import opened State
  import opened Progression

  /** Least attacker power an attack needs. */
  const MinAttackPower: nat := 50

  /** Protection a defeated defender receives, in milliseconds (six hours). */
  const ShieldDuration: int := 6 * 3600000

  /** Reports kept in the battle history. */
  const HistoryLength: nat := 10

  /** The chance the attacker wins: the power share, clamped to [0.1, 0.9]. */
  function WinChance(att: nat, def: nat): (p: real)
    requires att + def > 0
    ensures 0.1 <= p <= 0.9
    ensures var share := att as real / (att + def) as real;
      (p == share <==> 0.1 <= share <= 0.9) && (share < 0.1 ==> p == 0.1) && (share > 0.9 ==> p == 0.9)
  {
    Min(0.9, Max(0.1, att as real / (att + def) as real))
  }

  /** Equal forces give an even chance. */
  lemma EvenFight(power: nat)
    requires power > 0
    ensures WinChance(power, power) == 0.5
  {
    assert power as real / (power + power) as real == 0.5;
  }

  /** More attacker power never lowers the chance. */
  lemma WinChanceMonotone(a1: nat, a2: nat, def: nat)
    requires 0 < a1 <= a2
    ensures WinChance(a1, def) <= WinChance(a2, def)
  {
    var x1, x2, d := a1 as real, a2 as real, def as real;
    assert x1 * (x2 + d) <= x2 * (x1 + d) by {
      assert x1 * d <= x2 * d;
    }
    DivMonotone(x1, x1 + d, x2, x2 + d);
  }

  lemma DivMonotone(a: real, b: real, c: real, e: real)
    requires b > 0.0 && e > 0.0 && a * e <= c * b
    ensures a / b <= c / e
  {
    var q1, q2 := a / b, c / e;
    assert a == q1 * b && c == q2 * e;
    assert q1 * b * e <= q2 * e * b;
    assert q1 * (b * e) <= q2 * (b * e);
  }

  /** Nine times the defender's power or more always reaches the top chance. */
  lemma OverwhelmingForce(att: nat, def: nat)
    requires att > 0 && att >= 9 * def
    ensures WinChance(att, def) == 0.9
  {
    var x, d := att as real, def as real;
    assert 0.9 * (x + d) <= x;
    assert x / (x + d) >= 0.9 by {
      DivMonotone(0.9, 1.0, x, x + d);
    }
  }

  /** The units a count of `count` loses at `rate`, rounded down. */
  function Attrition(count: nat, rate: real): (k: nat)
    requires 0.0 <= rate <= 1.0
    ensures k <= count
    ensures k as real <= count as real * rate < k as real + 1.0
  {
    assert 0.0 <= count as real * rate <= count as real;
    (count as real * rate).Floor
  }

  function AttackerLossRate(won: bool): real
  {
    if won then 0.1 else 0.4
  }

  function DefenderLossRate(won: bool): real
  {
    if won then 0.3 else 0.05
  }

  /** The loss table of a fleet: one entry per type it has any of. */
  function Losses(f: Fleet, rate: real): (l: Fleet)
    requires 0.0 <= rate <= 1.0
    ensures forall t :: t in l <==> Count(f, t) > 0
    ensures forall t :: t in l ==> l[t] == Attrition(Count(f, t), rate) && l[t] <= Count(f, t)
  {
    map t | t in f && f[t] > 0 :: Attrition(f[t], rate)
  }

  /** A loss table only names types the fleet has, and never takes more than it has. */
  ghost predicate Covered(f: Fleet, l: Fleet)
  {
    forall t :: t in l ==> t in f && l[t] <= f[t]
  }

  /** A fleet after its losses are taken off. */
  function ApplyLosses(f: Fleet, l: Fleet): (r: Fleet)
    requires Covered(f, l)
    ensures forall t :: Count(r, t) == Count(f, t) - Count(l, t)
    ensures r.Keys == f.Keys
  {
    map t | t in f :: if t in l then f[t] - l[t] else f[t]
  }

  /** What a won attack takes: floor of 30% of the iron, 20% of the plasma and 10% of the credits. */
  function LootOf(def: GameState, won: bool): (loot: Loot)
    ensures !won ==> loot == Loot(0, 0, 0)
    ensures won ==>
      && loot.iron as real <= def.resources.iron * 0.3 < loot.iron as real + 1.0
      && loot.plasma as real <= def.resources.plasma * 0.2 < loot.plasma as real + 1.0
      && loot.credits as real <= def.credits * 0.1 < loot.credits as real + 1.0
  {
    if won then
      Loot((def.resources.iron * 0.3).Floor, (def.resources.plasma * 0.2).Floor, (def.credits * 0.1).Floor)
    else Loot(0, 0, 0)
  }

  /** Loot taken from non-negative balances is non-negative and never exceeds them, so the
      defender's clamp at zero never has to act. */
  lemma LootWithinHoldings(def: GameState, won: bool)
    requires def.credits >= 0.0 && def.resources.iron >= 0.0 && def.resources.plasma >= 0.0
    ensures var loot := LootOf(def, won);
      && 0 <= loot.iron && loot.iron as real <= def.resources.iron
      && 0 <= loot.plasma && loot.plasma as real <= def.resources.plasma
      && 0 <= loot.credits && loot.credits as real <= def.credits
  {
  }

  /** A report's callsign: the profile's, or the id when the profile has none. */
  function Callsign(p: Profile, id: string): string
  {
    if p.callsign != "" then p.callsign else id
  }

  /** The newest report first, then the old ones, at most ten in all. */
  function PushReport(report: BattleReport, history: seq<BattleReport>): (h: seq<BattleReport>)
    ensures |h| == if |history| < HistoryLength then |history| + 1 else HistoryLength
    ensures h[0] == report
    ensures forall i :: 1 <= i < |h| ==> h[i] == history[i - 1]
  {
    var all := [report] + history;
    if |all| <= HistoryLength then all else all[..HistoryLength]
  }

  datatype Battle =
    | Rejected(reason: Status)
    | Fought(report: BattleReport, attacker: GameState, defender: GameState)

  /** What one attack takes from outside the two states: the two player ids, the random draw,
      the clock reading, the report id and the narration text. */
  datatype Strike = Strike(attackerId: string, defenderId: string, draw: real, now: int,
                           reportId: string, narrative: string)

  /** The attacker's state after a battle, before its XP award. */
  function AttackerAfter(att: GameState, won: bool, loot: Loot, losses: Fleet, report: BattleReport): (r: GameState)
    requires Covered(att.fleet, losses)
    ensures r.warPoints >= 0
    ensures won && att.warPoints >= -25 ==> r.warPoints == att.warPoints + 25
    ensures !won && att.warPoints >= 15 ==> r.warPoints == att.warPoints - 15
    ensures !won && att.warPoints < 15 ==> r.warPoints == 0
    ensures forall t :: Count(r.fleet, t) == Count(att.fleet, t) - Count(losses, t)
    ensures 1 <= |r.battleHistory| <= HistoryLength && r.battleHistory[0] == report
    ensures r == att.(credits := r.credits, warPoints := r.warPoints, resources := r.resources,
                      fleet := r.fleet, battleHistory := r.battleHistory)
  {
    att.(
      credits := att.credits + loot.credits as real + (if won then 1000.0 else 0.0),
      warPoints := MaxInt(0, att.warPoints + (if won then 25 else -15)),
      resources := att.resources.(iron := att.resources.iron + loot.iron as real,
                                  plasma := att.resources.plasma + loot.plasma as real),
      fleet := ApplyLosses(att.fleet, losses),
      battleHistory := PushReport(report, att.battleHistory))
  }

  /** The defender's state after a battle: balances clamped at zero, shield only on a loss. */
  function DefenderAfter(def: GameState, won: bool, loot: Loot, losses: Fleet, now: int): (r: GameState)
    requires Covered(def.fleet, losses)
    ensures r.credits >= 0.0 && r.resources.iron >= 0.0 && r.resources.plasma >= 0.0
    ensures forall t :: Count(r.fleet, t) == Count(def.fleet, t) - Count(losses, t)
    ensures !won ==> r.profile == def.profile
    ensures r == def.(credits := r.credits, resources := r.resources, fleet := r.fleet, profile := r.profile)
  {
    def.(
      credits := Max(0.0, def.credits - loot.credits as real),
      resources := def.resources.(iron := Max(0.0, def.resources.iron - loot.iron as real),
                                  plasma := Max(0.0, def.resources.plasma - loot.plasma as real)),
      fleet := ApplyLosses(def.fleet, losses),
      profile := def.profile.(shieldUntil := if won then Some(now + ShieldDuration) else def.profile.shieldUntil))
  }

  /** The battle itself, once the target is known and the attacker has the power to attack. */
  function Resolve(att: GameState, def: GameState, x: Strike): (b: Battle)
    requires Power(att.fleet) >= MinAttackPower
    ensures b.Fought?
  {
    var won := x.draw < WinChance(Power(att.fleet), Power(def.fleet));
    var attLosses := Losses(att.fleet, AttackerLossRate(won));
    var defLosses := Losses(def.fleet, DefenderLossRate(won));
    var loot := LootOf(def, won);
    var report := BattleReport(x.reportId, x.now, x.attackerId, x.defenderId,
                               Callsign(att.profile, x.attackerId), Callsign(def.profile, x.defenderId),
                               won, loot, attLosses, defLosses, x.narrative);
    Fought(report,
           AwardXP(AttackerAfter(att, won, loot, attLosses, report), if won then 2000 else 500),
           DefenderAfter(def, won, loot, defLosses, x.now))
  }

  /** handleAttack from the point the target's state has been fetched (`target`, None when the
      lookup found nobody). */
  function Attack(att: GameState, target: Option<GameState>, x: Strike): (b: Battle)
    ensures b.Rejected? <==> x.defenderId == "" || target.None? || Power(att.fleet) < MinAttackPower
    ensures x.defenderId != "" && target.Some? && Power(att.fleet) < MinAttackPower ==> b == Rejected(PowerTooLow)
    ensures b.Fought? ==>
      && b.report.won == (x.draw < WinChance(Power(att.fleet), Power(target.value.fleet)))
      && b.report.loot == LootOf(target.value, b.report.won)
      && b.attacker.warPoints >= 0
      && |b.attacker.battleHistory| <= HistoryLength
      && b.defender.credits >= 0.0 && b.defender.resources.iron >= 0.0 && b.defender.resources.plasma >= 0.0
  {
    if x.defenderId == "" then Rejected(NoTarget)
    else if target.None? then Rejected(TargetNotFound)
    else if Power(att.fleet) < MinAttackPower then Rejected(PowerTooLow)
    else Resolve(att, target.value, x)
  }

  /** The report of a fought battle and the losses it records. */
  lemma AttackReport(att: GameState, target: Option<GameState>, x: Strike)
    requires Attack(att, target, x).Fought?
    ensures var b := Attack(att, target, x);
      var def := target.value;
      var won := b.report.won;
      && b.report.timestamp == x.now && b.report.attackerId == x.attackerId && b.report.defenderId == x.defenderId
      && b.report.narrative == x.narrative && b.report.id == x.reportId
      && (forall t :: t in b.report.attackerLosses <==> Count(att.fleet, t) > 0)
      && (forall t :: t in b.report.defenderLosses <==> Count(def.fleet, t) > 0)
      && (forall t :: t in b.report.attackerLosses ==>
            b.report.attackerLosses[t] == Attrition(Count(att.fleet, t), AttackerLossRate(won)))
      && (forall t :: t in b.report.defenderLosses ==>
            b.report.defenderLosses[t] == Attrition(Count(def.fleet, t), DefenderLossRate(won)))
  {
  }

  /** The attacker keeps the fleet minus its losses, gains exactly the loot (and 1000 credits on
      a win), moves its war points by +25 or -15 without going below zero, records the report
      first in a history of at most ten, and earns 2000 XP for a win or 500 for a loss. */
  lemma AttackerState(att: GameState, target: Option<GameState>, x: Strike)
    requires Attack(att, target, x).Fought?
    ensures var b := Attack(att, target, x);
      var won := b.report.won;
      var loot := b.report.loot;
      && (forall t :: Count(b.attacker.fleet, t) == Count(att.fleet, t) - Attrition(Count(att.fleet, t), AttackerLossRate(won)))
      && b.attacker.credits == att.credits + loot.credits as real + (if won then 1000.0 else 0.0)
      && b.attacker.resources == att.resources.(iron := att.resources.iron + loot.iron as real,
                                                plasma := att.resources.plasma + loot.plasma as real)
      && b.attacker.warPoints == MaxInt(0, att.warPoints + (if won then 25 else -15))
      && b.attacker.battleHistory == PushReport(b.report, att.battleHistory)
      && TotalXP(b.attacker) == TotalXP(att) + (if won then 2000 else 500)
      && b.attacker == att.(credits := b.attacker.credits, warPoints := b.attacker.warPoints,
                            resources := b.attacker.resources, fleet := b.attacker.fleet,
                            battleHistory := b.attacker.battleHistory,
                            xp := b.attacker.xp, level := b.attacker.level)
  {
    var b := Attack(att, target, x);
    var won := b.report.won;
    var losses := Losses(att.fleet, AttackerLossRate(won));
    assert b.report.attackerLosses == losses;
    forall t ensures Count(losses, t) == (if Count(att.fleet, t) > 0 then Attrition(Count(att.fleet, t), AttackerLossRate(won)) else 0) {
    }
    var after := AttackerAfter(att, won, b.report.loot, losses, b.report);
    assert b.attacker == AwardXP(after, if won then 2000 else 500);
  }

  /** The defender keeps the fleet minus its losses, loses the loot with each balance clamped at
      zero, gains a six-hour shield only when it lost, and nothing else changes. */
  lemma DefenderState(att: GameState, target: Option<GameState>, x: Strike)
    requires Attack(att, target, x).Fought?
    ensures var b := Attack(att, target, x);
      var def := target.value;
      var won := b.report.won;
      var loot := b.report.loot;
      && (forall t :: Count(b.defender.fleet, t) == Count(def.fleet, t) - Attrition(Count(def.fleet, t), DefenderLossRate(won)))
      && b.defender.credits == Max(0.0, def.credits - loot.credits as real)
      && b.defender.resources == def.resources.(iron := Max(0.0, def.resources.iron - loot.iron as real),
                                                plasma := Max(0.0, def.resources.plasma - loot.plasma as real))
      && b.defender.profile == def.profile.(shieldUntil := if won then Some(x.now + ShieldDuration) else def.profile.shieldUntil)
      && b.defender == def.(credits := b.defender.credits, resources := b.defender.resources,
                            fleet := b.defender.fleet, profile := b.defender.profile)
  {
    var b := Attack(att, target, x);
    var def := target.value;
    var won := b.report.won;
    var losses := Losses(def.fleet, DefenderLossRate(won));
    forall t ensures Count(losses, t) == (if Count(def.fleet, t) > 0 then Attrition(Count(def.fleet, t), DefenderLossRate(won)) else 0) {
    }
  }

  /** A battle against a valid defender keeps the attacker's state valid. */
  lemma AttackerStaysValid(att: GameState, target: Option<GameState>, x: Strike)
    requires Attack(att, target, x).Fought? && Valid(att) && Valid(target.value)
    ensures Valid(Attack(att, target, x).attacker)
  {
    var b := Attack(att, target, x);
    AttackerState(att, target, x);
    LootWithinHoldings(target.value, b.report.won);
    assert b.attacker.sectors == att.sectors && b.attacker.market == att.market;
  }

  /** A battle keeps the defender's state valid. */
  lemma DefenderStaysValid(att: GameState, target: Option<GameState>, x: Strike)
    requires Attack(att, target, x).Fought? && Valid(target.value)
    ensures Valid(Attack(att, target, x).defender)
  {
    var b := Attack(att, target, x);
    var def := target.value;
    DefenderState(att, target, x);
    assert b.defender.sectors == def.sectors && b.defender.market == def.market;
    assert b.defender.xp == def.xp && b.defender.level == def.level && b.defender.warPoints == def.warPoints;
  }

  /** Neither side's power grows in a battle. */
  lemma AttackLowersPower(att: GameState, target: Option<GameState>, x: Strike)
    requires Attack(att, target, x).Fought?
    ensures Power(Attack(att, target, x).attacker.fleet) <= Power(att.fleet)
    ensures Power(Attack(att, target, x).defender.fleet) <= Power(target.value.fleet)
  {
    var b := Attack(att, target, x);
    AttackerState(att, target, x);
    DefenderState(att, target, x);
    PowerMonotone(b.attacker.fleet, att.fleet);
    PowerMonotone(b.defender.fleet, target.value.fleet);
  }

  /** The forEach over the catalogue that fills both loss tables. */
  method ComputeLosses(attFleet: Fleet, defFleet: Fleet, won: bool) returns (attLosses: Fleet, defLosses: Fleet)
    ensures attLosses == Losses(attFleet, AttackerLossRate(won))
    ensures defLosses == Losses(defFleet, DefenderLossRate(won))
  {
    attLosses, defLosses := map[], map[];
    for i := 0 to |Types|
      invariant forall t :: t in attLosses <==> t in Types[..i] && Count(attFleet, t) > 0
      invariant forall t :: t in attLosses ==> attLosses[t] == Attrition(Count(attFleet, t), AttackerLossRate(won))
      invariant forall t :: t in defLosses <==> t in Types[..i] && Count(defFleet, t) > 0
      invariant forall t :: t in defLosses ==> defLosses[t] == Attrition(Count(defFleet, t), DefenderLossRate(won))
    {
      var t := Types[i];
      assert Types[..i + 1] == Types[..i] + [t];
      if Count(attFleet, t) > 0 {
        attLosses := attLosses[t := Attrition(Count(attFleet, t), AttackerLossRate(won))];
      }
      if Count(defFleet, t) > 0 {
        defLosses := defLosses[t := Attrition(Count(defFleet, t), DefenderLossRate(won))];
      }
    }
    assert Types[..|Types|] == Types;
    forall t: ShipType ensures t in Types {
      TypesComplete(t);
    }
    assert attLosses.Keys == Losses(attFleet, AttackerLossRate(won)).Keys;
    assert defLosses.Keys == Losses(defFleet, DefenderLossRate(won)).Keys;
  }

  /** The forEach over a loss table's keys that takes each loss off a copy of the fleet. */
  method SubtractLosses(f: Fleet, l: Fleet) returns (g: Fleet)
    requires Covered(f, l)
    ensures g == ApplyLosses(f, l)
  {
    g := f;
    for i := 0 to |Types|
      invariant g.Keys == f.Keys
      invariant forall t :: t in f ==> g[t] == if t in l && t in Types[..i] then f[t] - l[t] else f[t]
    {
      var t := Types[i];
      assert Types[..i + 1] == Types[..i] + [t];
      if t in l {
        g := g[t := g[t] - l[t]];
      }
    }
    assert Types[..|Types|] == Types;
    forall t: ShipType ensures t in Types {
      TypesComplete(t);
    }
  }

  /** handleAttack as written: the guards, then the battle. */
  method HandleAttack(att: GameState, target: Option<GameState>, x: Strike) returns (b: Battle)
    ensures b == Attack(att, target, x)
  {
    if x.defenderId == "" {
      return Rejected(NoTarget);
    }
    if target.None? {
      return Rejected(TargetNotFound);
    }
    if Power(att.fleet) < MinAttackPower {
      return Rejected(PowerTooLow);
    }
    b := Fight(att, target.value, x);
  }

  /** The battle, step by step, with the level-up loop at the end. */
  method Fight(att: GameState, def: GameState, x: Strike) returns (b: Battle)
    requires Power(att.fleet) >= MinAttackPower
    ensures b == Resolve(att, def, x)
  {
    var attPower := Power(att.fleet);
    var defPower := Power(def.fleet);
    var won := x.draw < WinChance(attPower, defPower);
    var attLosses, defLosses := ComputeLosses(att.fleet, def.fleet, won);
    var ironLoot, plasmaLoot, creditLoot := 0, 0, 0;
    if won {
      ironLoot := (def.resources.iron * 0.3).Floor;
      plasmaLoot := (def.resources.plasma * 0.2).Floor;
      creditLoot := (def.credits * 0.1).Floor;
    }
    var loot := Loot(ironLoot, plasmaLoot, creditLoot);
    assert loot == LootOf(def, won);
    var report := BattleReport(x.reportId, x.now, x.attackerId, x.defenderId,
                               Callsign(att.profile, x.attackerId), Callsign(def.profile, x.defenderId),
                               won, loot, attLosses, defLosses, x.narrative);
    var nextState := SettleAttacker(att, won, loot, attLosses, report);
    var nextDefState := SettleDefender(def, won, loot, defLosses, x.now);
    var finalState := AddXP(nextState, if won then 2000 else 500);
    b := Fought(report, finalState, nextDefState);
  }

  /** The attacker's next state: loot, bonus, war points, the fleet copy with losses taken off,
      and the report in front of the history. */
  method SettleAttacker(att: GameState, won: bool, loot: Loot, losses: Fleet, report: BattleReport)
    returns (nextState: GameState)
    requires Covered(att.fleet, losses)
    ensures nextState == AttackerAfter(att, won, loot, losses, report)
  {
    var newAttFleet := SubtractLosses(att.fleet, losses);
    nextState := att.(
      credits := att.credits + loot.credits as real + (if won then 1000.0 else 0.0),
      warPoints := MaxInt(0, att.warPoints + (if won then 25 else -15)),
      resources := att.resources.(iron := att.resources.iron + loot.iron as real,
                                  plasma := att.resources.plasma + loot.plasma as real),
      fleet := newAttFleet,
      battleHistory := PushReport(report, att.battleHistory));
  }

  /** The defender's next state: balances less the loot clamped at zero, the fleet copy with
      losses taken off, and a shield when it lost. */
  method SettleDefender(def: GameState, won: bool, loot: Loot, losses: Fleet, now: int)
    returns (nextDefState: GameState)
    requires Covered(def.fleet, losses)
    ensures nextDefState == DefenderAfter(def, won, loot, losses, now)
  {
    var newDefFleet := SubtractLosses(def.fleet, losses);
    nextDefState := def.(
      credits := Max(0.0, def.credits - loot.credits as real),
      resources := def.resources.(iron := Max(0.0, def.resources.iron - loot.iron as real),
                                  plasma := Max(0.0, def.resources.plasma - loot.plasma as real)),
      fleet := newDefFleet,
      profile := def.profile.(shieldUntil := if won then Some(now + ShieldDuration) else def.profile.shieldUntil));
  }
}
