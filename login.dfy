/** Loading a stored pilot at login: the stored game state is laid over the default state, field
    by field, so a record saved by an older version still has every field. */
module Login {
  import opened Wrappers
  import opened Catalog
  import opened State

  /** A game state as the database hands it back: any top-level field may be missing. */
  datatype StoredState = StoredState(
    credits: Option<real>, xp: Option<nat>, level: Option<nat>, warPoints: Option<int>,
    resources: Option<Resources>, upgrades: Option<Upgrades>, fleet: Option<Fleet>,
    sectors: Option<seq<Sector>>, threatLevel: Option<int>, lastUpdate: Option<int>,
    market: Option<Market>, profile: Option<Profile>, stats: Option<Stats>,
    battleHistory: Option<seq<BattleReport>>)

  /** A record with no fields at all. */
  const Empty: StoredState :=
    StoredState(None, None, None, None, None, None, None, None, None, None, None, None, None, None)

  /** What saving a state writes: every field present. */
  function Store(s: GameState): StoredState
  {
    StoredState(Some(s.credits), Some(s.xp), Some(s.level), Some(s.warPoints), Some(s.resources),
                Some(s.upgrades), Some(s.fleet), Some(s.sectors), Some(s.threatLevel), Some(s.lastUpdate),
                Some(s.market), Some(s.profile), Some(s.stats), Some(s.battleHistory))
  }

  /** The stored fields spread over the default state built at `now`. */
  function Spread(now: int, st: StoredState): GameState
  {
    var d := Initial(now);
    GameState(
      GetOr(st.credits, d.credits), GetOr(st.xp, d.xp), GetOr(st.level, d.level),
      GetOr(st.warPoints, d.warPoints), GetOr(st.resources, d.resources),
      GetOr(st.upgrades, d.upgrades), GetOr(st.fleet, d.fleet), GetOr(st.sectors, d.sectors),
      GetOr(st.threatLevel, d.threatLevel), GetOr(st.lastUpdate, d.lastUpdate),
      GetOr(st.market, d.market), GetOr(st.profile, d.profile), GetOr(st.stats, d.stats),
      GetOr(st.battleHistory, d.battleHistory))
  }

  /** handleLogin as written: war points fall back to 100 when missing or when they are 0
      (a falsy value), the battle history to the empty list when missing. */
  function LoadAsWritten(now: int, st: StoredState): (s: GameState)
    ensures s.warPoints != 0
    ensures st.warPoints.Some? && st.warPoints.value != 0 ==> s.warPoints == st.warPoints.value
  {
    Spread(now, st).(
      warPoints := if st.warPoints.None? || st.warPoints.value == 0 then 100 else st.warPoints.value,
      battleHistory := GetOr(st.battleHistory, []))
  }

  /** The as-written load differs from the spread exactly when the stored war points are 0. */
  lemma LoadAsWrittenDiffers(now: int, st: StoredState)
    ensures LoadAsWritten(now, st) != Spread(now, st) <==> st.warPoints == Some(0)
  {
    if st.warPoints == Some(0) {
      assert LoadAsWritten(now, st).warPoints == 100;
      assert Spread(now, st).warPoints == 0;
    }
  }

  /** A pilot beaten down to 0 war points comes back from a reload with 100. */
  lemma ZeroWarPointsReset(now: int)
    ensures var s := Initial(now).(warPoints := 0);
      LoadAsWritten(now, Store(s)).warPoints == 100 && LoadAsWritten(now, Store(s)) != s
  {
  }

  /** The login merge with the default applied only to a missing field. */
  function Load(now: int, st: StoredState): (s: GameState)
    ensures st.warPoints.Some? ==> s.warPoints == st.warPoints.value
    ensures st.warPoints.None? ==> s.warPoints == Initial(now).warPoints
  {
    Spread(now, st).(battleHistory := GetOr(st.battleHistory, []))
  }

  /** Loading what was saved gives back the saved state. */
  lemma LoadStoreRoundTrip(now: int, s: GameState)
    ensures Load(now, Store(s)) == s
  {
  }

  /** A record with no fields loads as the default state. */
  lemma LoadEmpty(now: int)
    ensures Load(now, Empty) == Initial(now)
  {
  }

  /** Loading a saved valid state yields a valid state. */
  lemma LoadKeepsValid(now: int, s: GameState)
    requires Valid(s)
    ensures Valid(Load(now, Store(s)))
  {
    LoadStoreRoundTrip(now, s);
  }
}
