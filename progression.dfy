/** Experience and levels (addXP): an award is added to the XP, then whole thresholds are
    traded for levels as long as the XP covers the current one. */
module Progression {
  import opened Formulas
  import opened State

  /** The (xp, level) pair the level-up loop stops at, starting from (xp, level). */
  function Settle(xp: nat, level: nat): (r: (nat, nat))
    ensures r.1 >= level
    ensures r.0 <= xp
    ensures r.0 < XPToNextLevel(r.1)
    decreases xp, if level == 0 then 1 else 0
  {
    if xp >= XPToNextLevel(level) then Settle(xp - XPToNextLevel(level), level + 1)
    else (xp, level)
  }

  /** XP it takes to climb from level 0 to level `to`. */
  function Climb(to: nat): nat
  {
    if to == 0 then 0 else Climb(to - 1) + XPToNextLevel(to - 1)
  }

  /** All XP ever earned, as the levels passed plus the leftover. */
  function TotalXP(s: GameState): nat
  {
    Climb(s.level) + s.xp
  }

  /** Settling loses no XP: what the new levels cost plus the leftover is what there was. */
  lemma {:induction false} SettleConserves(xp: nat, level: nat)
    ensures Settle(xp, level).1 >= level
    ensures Settle(xp, level).0 + Climb(Settle(xp, level).1) == xp + Climb(level)
    decreases xp, if level == 0 then 1 else 0
  {
    if xp >= XPToNextLevel(level) {
      SettleConserves(xp - XPToNextLevel(level), level + 1);
    }
  }

  /** Settle is the only pair at or above `level` that conserves XP and leaves less than the
      next threshold over. */
  lemma {:induction false} SettleUnique(xp: nat, level: nat, x: nat, l: nat)
    requires l >= level && x < XPToNextLevel(l) && x + Climb(l) == xp + Climb(level)
    ensures Settle(xp, level) == (x, l)
    decreases l - level
  {
    if l > level {
      ClimbMonotone(level + 1, l);
      assert xp >= XPToNextLevel(level);
      SettleUnique(xp - XPToNextLevel(level), level + 1, x, l);
    }
  }

  lemma {:induction false} ClimbMonotone(a: nat, b: nat)
    requires a <= b
    ensures Climb(a) <= Climb(b)
    decreases b - a
  {
    if a < b {
      ClimbMonotone(a, b - 1);
    }
  }

  /** The state after `amount` XP is awarded. */
  function AwardXP(s: GameState, amount: nat): (r: GameState)
    ensures r == s.(xp := r.xp, level := r.level)
    ensures r.level >= s.level
    ensures r.xp < XPToNextLevel(r.level)
    ensures TotalXP(r) == TotalXP(s) + amount
  {
    var p := Settle(s.xp + amount, s.level);
    SettleConserves(s.xp + amount, s.level);
    s.(xp := p.0, level := p.1)
  }

  /** addXP: the level-up loop itself. */
  method AddXP(s: GameState, amount: nat) returns (r: GameState)
    ensures r == AwardXP(s, amount)
  {
    var newXP: nat := s.xp + amount;
    var newLevel: nat := s.level;
    var xpReq := XPToNextLevel(newLevel);
    while newXP >= xpReq
      invariant xpReq == XPToNextLevel(newLevel)
      invariant Settle(newXP, newLevel) == Settle(s.xp + amount, s.level)
      decreases newXP, if newLevel == 0 then 1 else 0
    {
      newXP := newXP - xpReq;
      newLevel := newLevel + 1;
      xpReq := XPToNextLevel(newLevel);
    }
    r := s.(xp := newXP, level := newLevel);
  }

  /** One award of 10000 XP at level 1 passes two thresholds (1000 and 3000). */
  lemma MultiLevelAward()
    ensures Settle(10000, 1) == (6000, 3)
  {
    ThirdThreshold();
    assert XPToNextLevel(2) == 3000;
    SettleUnique(10000, 1, 6000, 3);
  }

  /** An award keeps a valid state valid. */
  lemma AwardKeepsValid(s: GameState, amount: nat)
    requires Valid(s)
    ensures Valid(AwardXP(s, amount))
  {
  }
}
