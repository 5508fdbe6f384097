# nebulaminer simulation core in Dafny

nebulaminer is a browser space-mining game. A pilot mines iron, plasma and crystal. They also
build a fleet from six ship types, buy upgrades, trade 100 units at a time with the market,
capture map sectors, garrison miners and haulers there, and raid other pilots. The game's
rules sit in the state updaters of one React component, `index.tsx`. This project models those
rules as values and transitions over a `GameState` record and proves their properties.

Modules, one per part of the game:

- `Catalog`: the ship catalogue, looking a ship up by id, and fleet war power.
- `Numbers`: the minimum and maximum helpers the rules use (`Math.min`, `Math.max`).
- `Formulas`: the level threshold, storage cap and upgrade cost formulas.
- `State`: the game state, the five-sector map, the validity invariant and the default state.
- `Progression`: the XP award and its level-up loop. `AddXP` is the loop as a method. `AwardXP`
  is the function it is proved against. XP is accounted through `TotalXP`, the XP spent to reach
  the current level plus the leftover.
- `Production`: the one-second production tick, and a closed form for many ticks.
- `Commands`: building ships, buying upgrades, the signal button, and market trades.
  `HandleTrade` is the trade's in-place update on a copy, as a method.
- `Combat`: the attack. This covers power, win chance, the loss tables (filled by a loop in
  `ComputeLosses`), loot, and both sides' next states (`SettleAttacker`, `SettleDefender`,
  `SubtractLosses`). `HandleAttack` and `Fight` are the imperative handler. `Attack` and
  `Resolve` are the functions it is proved against.
- `Sectors`: sector capture and garrison deployment.
- `Login`: the merge of a stored state over the defaults at login.

Building, upgrading, trading, capturing and deploying return an `Outcome`: the new state and a
`Status`. The status is `Ok` when the command took effect. Otherwise it names the reason the code
returned early, and the state is unchanged. `Commands.SendSignal` has no early return and gives
back the new state alone. `Combat.Attack` gives a `Battle`: `Rejected(reason)` when the handler
returns early, in which case neither pilot's state changes, or `Fought(report, attacker,
defender)` with both pilots' next states.

Inputs from outside are parameters: the clock reading `now`, the random draw of the battle,
the report id and the battle narrative. Credit and
resource amounts are exact reals. `.Floor` stands for `Math.floor`.

## Model

| member | source | states |
|---|---|---|
| Catalog.Find | index.tsx:256-257 | a found ship type has the requested id; when nothing is found, no type in the catalogue has it |
| Catalog.FindById | index.tsx:95-103 | every catalogue id finds its own type |
| Catalog.Power | index.tsx:316 | every type adds at least its count times its unit power, and the power is zero exactly when the fleet has no ships |
| Catalog.PowerClosedForm | index.tsx:316 | fleet power is 2·scouts + 8·miners + 25·defenders + 5·haulers + 120·cruisers + 650·motherships, with a missing count taken as 0 |
| Catalog.PowerMonotone | index.tsx:316 | a fleet with no more of any type than another has no more power |
| Formulas.XPToNextLevel | index.tsx:171 | from level 1 on, the threshold is at least 1000·level, so each level-up takes at least 1000 XP |
| Formulas.XPToNextLevelIncreasing | index.tsx:171 | each level's threshold is strictly above the previous one |
| Formulas.XPToNextLevelMonotone | index.tsx:171 | thresholds never fall as the level rises |
| Formulas.ThirdThreshold | index.tsx:171 | level 3 needs floor(3000·1.5²) = 6750 XP |
| Formulas.MaxStorage | index.tsx:172 | the storage cap is never negative |
| Formulas.MaxStorageIncreasing | index.tsx:172 | each storage level adds exactly 5000 units to the cap, so the cap strictly grows |
| Formulas.StorageUpgradeCost | index.tsx:173 | the upgrade from level 1 costs exactly 2500 credits and every later one at least that; level 0 gives floor(2500/1.8) = 1388 |
| Formulas.StorageUpgradeCostIncreasing | index.tsx:173 | each storage upgrade costs strictly more than the one before |
| Formulas.AutoMinerCost | index.tsx:174 | an auto-miner costs at least 500 credits |
| Formulas.AutoMinerCostIncreasing | index.tsx:174 | each auto-miner costs strictly more than the one before |
| Formulas.ThirdAutoMinerCost | index.tsx:174 | the third auto-miner (level 2) costs floor(500·1.5²) = 1125 |
| State.Initial | index.tsx:113-144 | the default state: 5000 credits, level 1, 100 war points, the five sectors with only the core controlled, and a 24-hour shield; it is valid and within the storage cap |
| Progression.Settle | index.tsx:246-250 | the loop's end point: the level never drops, leftover XP is at most the starting XP and below the final threshold |
| Progression.SettleConserves | index.tsx:246-250 | no XP is lost or created: leftover plus the thresholds climbed equals the starting XP plus the thresholds below the start level |
| Progression.SettleUnique | index.tsx:246-250 | the end point is the only (xp, level) pair at or above the start level that conserves XP and leaves xp below the threshold |
| Progression.AwardXP | index.tsx:241-253 | only xp and level change, the level never drops, xp ends below the threshold, and total XP grows by exactly the award |
| Progression.AddXP | index.tsx:241-253 | the while loop returns exactly the award's end state |
| Progression.MultiLevelAward | index.tsx:246-250 | 10000 XP at level 1 gives level 3 with 6000 XP left, so one award can give several levels |
| Progression.AwardKeepsValid | index.tsx:241-253 | an award keeps the state valid |
| Production.SectorYield | index.tsx:454-455 | a sector's yield is not negative when its multiplier is not negative |
| Production.Controlled | index.tsx:453 | the filtered list holds only controlled sectors of the map |
| Production.SectorBonusIsMasked | index.tsx:453-456 | the filter-then-sum bonus equals the sum over all sectors with uncontrolled ones counting zero |
| Production.SectorBonus | index.tsx:453-456 | with non-negative multipliers, the sector bonus is not negative |
| Production.IronRate | index.tsx:450-462 | with non-negative multipliers, the iron rate is not negative, at least the auto-miners' 1.5 each and at least the sector bonus |
| Production.PlasmaRate | index.tsx:451-463 | with non-negative multipliers, the plasma rate is not negative |
| Production.CrystalRate | index.tsx:464 | with non-negative multipliers, the crystal rate is not negative |
| Production.Tick | index.tsx:448-467 | only iron, plasma and crystal change; dataBits and darkMatter stay. Each stock ends within the cap, at most stock + rate, and equal to stock + rate or to the cap |
| Production.TickClamps | index.tsx:462-464 | a stock within the cap never drops in a tick; a stock above the cap is cut to the cap |
| Production.TickKeepsValid | index.tsx:458-466 | a tick keeps the state valid |
| Production.TicksFrame | index.tsx:458-466 | any number of ticks changes nothing but iron, plasma and crystal |
| Production.TicksKeepRates | index.tsx:449-456 | ticks leave upgrades, fleet and sectors as they were, so the rates stay fixed |
| Production.TickAfterTicks | index.tsx:462-464 | the k-th tick adds the starting state's rate, capped |
| Production.TicksStep | index.tsx:462-464 | if the closed form holds after k-1 ticks, it holds after k |
| Production.TicksClosedForm | index.tsx:448-467 | after k ticks from a state within the cap, each stock is min(cap, stock + k·rate) |
| Production.InitialTenTicks | index.tsx:448-467 | ten ticks from the default state give 1020 iron, 201 plasma and 50.4 crystal |
| Commands.BuildShip | index.tsx:255-272 | ok iff the id is in the catalogue and every cost component is covered; an unknown id or a shortfall leaves the state unchanged. On success each component is debited exactly, that ship count rises by one, other counts stay, total XP grows by 5·power, nothing else changes, and validity is kept |
| Commands.RaiseLevel | index.tsx:283 | the chosen upgrade level rises by one and the others stay |
| Commands.UpgradeCost | index.tsx:275-277 | storage and auto-miner upgrades cost their formulas; the other four tracks are free |
| Commands.Upgrade | index.tsx:274-286 | ok iff credits cover the cost, otherwise unchanged. On success exactly the cost is debited, one track rises by one, total XP grows by 100, nothing else changes, and validity is kept |
| Commands.StorageUpgradeRaisesCap | index.tsx:276-283 | a storage upgrade raises the cap by exactly 5000 units |
| Commands.AutoMinerRaisesIron | index.tsx:277-283 | an auto-miner upgrade adds exactly 1.5 iron per tick and leaves the plasma and crystal rates alone |
| Commands.MinerRaisesRates | index.tsx:255-271 | building a miner adds exactly 3 iron and 0.3 plasma per tick and leaves the crystal rate alone |
| Commands.SendSignal | index.tsx:542 | credits rise by 50, total XP by 10, nothing else changes, and validity is kept |
| Commands.Trade | index.tsx:424-442 | a buy succeeds iff credits ≥ price·100, a sell iff the stock ≥ 100, otherwise unchanged. On success credits move by exactly price·100, the stock by 100 the other way, other stocks and fields stay, and validity is kept |
| Commands.HandleTrade | index.tsx:424-442 | the in-place update of the copied state gives exactly the trade's outcome |
| Commands.TradeRoundTrip | index.tsx:429-438 | selling what was just bought, or buying back what was just sold, restores the state exactly |
| Commands.TradeKeepsMarketValue | index.tsx:429-438 | credits plus the traded stock's market value are the same before and after a trade |
| Commands.BuyIgnoresStorage | index.tsx:430-432 | a full store still buys and then holds more than the cap |
| Combat.WinChance | index.tsx:325 | the chance always lies in [0.1, 0.9]; it equals the power share exactly when the share is in that range, and is 0.1 or 0.9 beyond it |
| Combat.EvenFight | index.tsx:325 | equal powers give a chance of exactly 0.5 |
| Combat.WinChanceMonotone | index.tsx:325 | more attacker power never lowers the chance |
| Combat.OverwhelmingForce | index.tsx:325 | nine times the defender's power or more gives the top chance of 0.9 |
| Combat.Attrition | index.tsx:330-331 | a loss is the floor of count·rate, so it never exceeds the count |
| Combat.Losses | index.tsx:329-332 | the loss table has an entry exactly for each type with a positive count, holding that type's attrition |
| Combat.ApplyLosses | index.tsx:370-371 | each count falls by exactly its loss and no type is added or removed |
| Combat.LootOf | index.tsx:334-339 | no loot on a loss; on a win, the floors of 30% of the iron, 20% of the plasma and 10% of the credits |
| Combat.LootWithinHoldings | index.tsx:334-339 | loot from non-negative balances is non-negative and no larger than those balances |
| Combat.PushReport | index.tsx:383 | the history becomes the new report followed by the old reports in order, at most ten in all |
| Combat.AttackerAfter | index.tsx:373-384 | war points are never negative: +25 on a win, -15 on a loss, 0 when the loss would go below zero. Each count falls by its loss, the report heads a history of at most ten, and only credits, war points, resources, fleet and history change |
| Combat.DefenderAfter | index.tsx:390-400 | credits, iron and plasma are never negative. Each count falls by its loss, the profile is unchanged after a defender win, and only credits, resources, fleet and profile change |
| Combat.Resolve | index.tsx:325-399 | a battle past the guards is always fought |
| Combat.Attack | index.tsx:311-404 | rejected iff there is no target id, the target is not found, or the attacker's power is below 50 (PowerTooLow then). When fought: won iff the draw is below the win chance, loot as above, war points ≥ 0, history ≤ 10, defender balances ≥ 0 |
| Combat.AttackReport | index.tsx:357-368 | the report carries the given id, time and ids, the narrative and both loss tables |
| Combat.AttackerState | index.tsx:370-404 | the attacker loses its attrition per type. It gains exactly the loot plus 1000 credits on a win, and its war points become max(0, wp+25) or max(0, wp-15). The report heads its history, total XP grows by 2000 or 500, and nothing else changes |
| Combat.DefenderState | index.tsx:388-400 | the defender loses its attrition per type and loses the loot with each balance clamped at 0. Its shield becomes now + 6 h only when it lost, and nothing else changes |
| Combat.AttackerStaysValid | index.tsx:370-404 | against a valid defender, the attack keeps the attacker valid |
| Combat.DefenderStaysValid | index.tsx:388-400 | the attack keeps the defender valid |
| Combat.AttackLowersPower | index.tsx:370-389 | neither side's fleet power grows in a battle |
| Combat.ComputeLosses | index.tsx:329-332 | the forEach over the catalogue builds exactly both loss tables |
| Combat.SubtractLosses | index.tsx:370-371 | decrementing the copied fleet per loss entry gives the fleet after losses |
| Combat.SettleAttacker | index.tsx:370-384 | the attacker's next state, built field by field, is the attacker after the battle |
| Combat.SettleDefender | index.tsx:388-400 | the defender's next state, built field by field, is the defender after the battle |
| Combat.Fight | index.tsx:325-404 | the imperative battle returns exactly the resolved battle |
| Combat.HandleAttack | index.tsx:311-325 | the handler with its early returns gives exactly the attack's result |
| Sectors.FindSector | index.tsx:408 | returns the first position holding the id, or none when no sector has it |
| Sectors.MarkControlled | index.tsx:418 | same length; a sector is controlled afterwards iff it was before or carries the id, and nothing else about any sector changes |
| Sectors.Capture | index.tsx:407-422 | ok iff the sector exists, is not controlled, and power ≥ 10·risk. A missing or controlled sector and too little power leave the state unchanged (PowerTooLow exactly in the last case). On success only the flag of the sectors with that id turns true, the fleet is kept, total XP grows by 50·risk, and validity is kept |
| Sectors.CaptureIgnoresLevel | index.tsx:407-420 | the outcome of a capture does not depend on xp or level |
| Sectors.CaptureBelowMinLevel | index.tsx:407-420 | a level-1 pilot with two cruisers captures the asteroid belt, whose minimum level is 3 |
| Sectors.MarkAddsYield | index.tsx:416-419 | with unique ids, marking an uncontrolled sector adds exactly its yield to the bonus |
| Sectors.CaptureAddsYield | index.tsx:416-419 | a capture raises the sector bonus by exactly the captured sector's yield |
| Sectors.Deploy | index.tsx:625-632 | ok iff the fleet holds at least one of the type, otherwise unchanged. On success that fleet count falls by one, each sector with the id gains one of the type, other types and sectors and fields stay, and validity is kept |
| Sectors.GarrisonCounts | index.tsx:627 | the garrison of the type grows by the number of sectors with the id; other types stay |
| Sectors.DeployConserves | index.tsx:626-631 | with unique ids, fleet plus garrison is the same for every type after deploying to an existing sector |
| Sectors.Garrison | index.tsx:627 | same length; each sector with the id gains exactly one ship of the type, other types and other sectors are unchanged, and only garrisons change |
| Sectors.MinerYield | index.tsx:454-455 | each garrisoned miner adds 5·multiplier·(1 + 0.2·haulers) to the sector's yield |
| Sectors.HaulerYield | index.tsx:454-455 | each garrisoned hauler adds a fifth of the sector's base yield |
| Login.LoadAsWrittenDiffers | index.tsx:212-217 | the login merge as written differs from a plain spread over the defaults exactly when the stored war points are 0 |
| Login.LoadAsWritten | index.tsx:212-217 | the merge as written never yields 0 war points, and keeps stored war points that are not 0 |
| Login.ZeroWarPointsReset | index.tsx:215 | a saved state with 0 war points reloads with 100 |
| Login.Load | index.tsx:212-217 | the corrected merge: stored war points are kept, and 100 is used only when they are missing |
| Login.LoadStoreRoundTrip | index.tsx:212-217 | with the corrected merge, loading a saved state gives it back unchanged |
| Login.LoadEmpty | index.tsx:212-217 | a stored record with no fields loads as the default state |
| Login.LoadKeepsValid | index.tsx:212-217 | loading a saved valid state gives a valid state |

## Left out

- Rendering, sub-components and derived displays (index.tsx:472-861) are presentation only.
- The database service, the debounced save, signup and the password check are foreign I/O. So
  is the write of the defender's record. The race between reading and writing the defender's
  record across sessions cannot be expressed in a sequential model.
- The battle narrative comes from an external text-generation call. It is a parameter
  (`Strike.narrative`), as are the random report id, the random draw and the clock reading.
- `localStorage`, `setInterval` and the timing of ticks are left out. The tick is one transition
  (`Production.Tick`), and `Production.Ticks` repeats it.
- handleSpy is left out: it needs a scout, fetches the target's record for display, and awards
  200 XP (one `Progression.AwardXP(s, 200)` on the own state). The leaderboard only fetches and
  displays data.
- The shield is enforced only by a disabled button, and `Combat.Attack` does not check it, as the
  handler does not.
- Combat.HandleAttack: the guard on `targetInfo` (set by spying) is UI state and is not modelled.
  Only the target id, the lookup and the power guard are.
- Numbers are exact reals, not doubles, and `Math.pow` is an exact power. Rounding error is not
  reproduced.
- Each command is one transition of one state. The code has aliasing that this hides:
  - handleTrade mutates the previous state's resources through a shallow copy;
  - buildShip checks `gameState` but debits `prev`;
  - handleUpgrade takes the cost and the credit check from `gameState` but debits `prev`;
  - captureSector checks the sector and the power on `gameState` but marks the sector on `prev`;
  - the deploy handlers check the fleet on `gameState` but update `p`;
  - the attack builds its next state from the `gameState` it read.
- A missing fleet or garrison count is treated as 0 throughout. The code's `undefined`
  arithmetic paths (NaN) are not modelled.
- Sectors.Deploy: the handler is reached only from a controlled sector's button, so the model
  takes any id and does not check `controlled`.
- Login.Load: profile and stats are merged as whole records. A stored record whose nested
  fields are missing is not modelled.
- Capture never checks the sector's `minLevel`; the model does not either.
- Buying and loot are not capped by storage; only the next production tick cuts a stock back.
- Market prices never change here: the file has no tax, no trade escrow and no price updates.
- Stats are carried along but never updated by this file.

## Findings

| source | as written | input that shows it | evidently intended | confidence | as-written member | corrected member |
|---|---|---|---|---|---|---|
| index.tsx:215 | `warPoints: user.gameState.warPoints \|\| 100` treats stored 0 war points as missing | a pilot whose losses brought war points down to 0 (the clamp in index.tsx:376) reloads with 100 | fall back to 100 only when the field is missing (`??`) | medium, not executed | Login.ZeroWarPointsReset | Login.LoadStoreRoundTrip |
