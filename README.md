# Pifferaio combat rules in Dafny

This project models the combat rule engine of Pifferaio, a Unity action game in which the player
plays coloured notes. The notes are matched against a learned spell inventory. A matched melody is
built into a spell payload, and the payload is delivered by a projectile, an area, a beam or a
self buff. These damage, heal, shield or slow the training dummies and the player.

The model covers these parts:
- the notes and melodies;
- the note queue and spell matcher;
- the loot generator;
- the spell builder;
- the two combat targets (the dummy and the player's stats);
- the five effect resolvers (beam, area, buff, homing projectile, parry bubble) and the melee hitbox;
- the player's action state machine.

Time, physics queries and randomness are inputs:
- `Time.deltaTime` and `Time.time` are parameters `dt` and `now`.
- An overlap or raycast query is a given list of `Collider`s. Each carries an id, a tag, a trigger flag, whether an `IDamageable` was found, and a distance.
- Each `Random.Range` draw of the loot generator is read from an oracle sequence `draws`.
- `float` is `real`.

A resolver does not mutate its targets. It returns the `IDamageable` calls it makes, as a sequence of `Hit(target, call)`. `Dummy.DummyController.Receive` applies one such call to a dummy.

Each stateful component is a class whose fields the source updates in place. Its methods are
proved against a pure step function on a value view of those fields. The properties the code
promises are lemmas about those step functions. Loops become `while` loops whose invariants tie
the running state to a specification fold over the prefix processed so far. This applies to the
inventory scan, the generator's extension loop, the beam's ray and tick loops and the area tick.
The hitbox has no loop of its own: `Hitbox.BasicAttackHitbox.Contacts` is a driver that stands
for the engine delivering a swing's trigger callbacks one after another.

Points of the code's behaviour worth stating:
- **Matching.** The matcher scans the inventory in order and takes the *first* spell whose sequence equals the end of the queue, comparing note objects, even when a later spell would match more notes (`SpellCaster.FirstMatchNotLongest`). A cast clears the whole queue.
- **Looting.** Looting appends the melody as it is. Every generated melody has level 1.
- **Generation.** The generator draws two notes unconditionally. It then adds extension notes while they fit under `maxCost`, for at most 50 iterations and 4 notes. A tier with no rule yields no melody. The final cost can be below `minCost` (`Generator.MinCostNotGuaranteed`) and, through the two unconditional notes, above `maxCost` (`Generator.MandatoryNotesMayExceedMax`).
- **Green extension.** The builder stores the area's *tick interval* and the beam's ramp-up speed in `tickRate`, and every resolver reads `tickRate` as a rate (`1 / tickRate`). So a Green extension on an area, which multiplies `tickRate` by 0.7, makes the area tick *more slowly* (`Area.GreenSlowsAreaTicks`). A self buff never gets a tick rate and ticks every 99 s (`Area.SelfBuffTicksEvery99Seconds`).
- **Red extension.** It multiplies power by exactly 1.5 and leaves a beam's decay as it is.

Other behaviours of the code are proved as stated:
- A cast's safety check fires the spell a second time when it runs after the fire frame but before the end frame (`Controller.SafetyNetCanFireTwice`).
- A Red press during a smash is ignored, but the following release smashes again (`Controller.RepressDuringSmashSmashesAgain`).
- A dummy's health is not clamped at death (`Dummy.DeathDoesNotClampHealth`).

`damageDecay` and `knockback` are read by the beam and the area but not declared in the payload.
They are extra payload fields that the builder leaves at 0.

## Model

| member | source | states |
|---|---|---|
| Notes.NoteDefinition.constructor | Assets/_Game/Scripts/MelodySystem/Note/NoteDefinition.cs:13-29 | a note asset carries its colour and complexity cost; its identity is the object, separate from its colour |
| Melodies.NewMelody | Assets/_Game/Scripts/MelodySystem/Melody.cs:9-13 | a new melody has the given tier, level 1 and no notes, so a total cost of 0 |
| Melodies.TotalCost | Assets/_Game/Scripts/MelodySystem/Melody.cs:16-21 | the total of notes with non-negative costs is non-negative, and a single note's total is its own cost |
| Melodies.TotalCostPush | Assets/_Game/Scripts/MelodySystem/Melody.cs:16-21 | appending a note adds exactly that note's cost to the total |
| Melodies.TotalCostConcat | Assets/_Game/Scripts/MelodySystem/Melody.cs:16-21 | the total cost is additive over concatenation, so it is the plain sum of the costs whatever the grouping |
| Melodies.TotalCostBounds | Assets/_Game/Scripts/MelodySystem/Melody.cs:16-21 | when every cost lies in [lo, hi], the total of n notes lies in [lo·n, hi·n] |
| Melodies.IsSameSequence | Assets/_Game/Scripts/MelodySystem/Melody.cs:24-32 | false for a missing melody and for a length difference; true exactly when both colour sequences are equal |
| Melodies.SameColorsFrom | Assets/_Game/Scripts/MelodySystem/Melody.cs:27-31 | the early-exit loop from position i is true exactly when every later position agrees in colour |
| Melodies.IsSameSequenceEquivalence | Assets/_Game/Scripts/MelodySystem/Melody.cs:26-31 | the comparison is reflexive and symmetric, ignoring tier and level |
| Melodies.IsSameSequenceOrderAndColour | Assets/_Game/Scripts/MelodySystem/Melody.cs:27-31 | it is order-sensitive (two swapped colours differ) and compares colours, not note objects |
| SpellCaster.Pushed | Assets/_Game/Scripts/MelodySystem/SpellCasterSystem.cs:61-67 | the new note is last; a queue under 4 grows by it; a full queue drops exactly its oldest note; the length stays at most 4 |
| SpellCaster.IsSubsequenceMatch | Assets/_Game/Scripts/MelodySystem/SpellCasterSystem.cs:93-103 | a spell matches exactly when it is no longer than the queue and equals the queue's suffix of its length, note object by note object |
| SpellCaster.MatchesFrom | Assets/_Game/Scripts/MelodySystem/SpellCasterSystem.cs:98-101 | the comparison loop from position i is true exactly when every later position holds the same note object |
| SpellCaster.ReadySpell | Assets/_Game/Scripts/MelodySystem/SpellCasterSystem.cs:75-89 | the ready spell is one of the inventory's spells and matches the queue; nothing is ready only when no spell matches |
| SpellCaster.FirstMatch | Assets/_Game/Scripts/MelodySystem/SpellCasterSystem.cs:78-89 | the index found matches and no earlier spell matches; none is found only when no spell matches |
| SpellCaster.MatchFitsQueue | Assets/_Game/Scripts/MelodySystem/SpellCasterSystem.cs:95 | a matching spell is never longer than the queue, hence never longer than 4 notes |
| SpellCaster.MatchImpliesSameColours | Assets/_Game/Scripts/MelodySystem/SpellCasterSystem.cs:93-103 | a reference match is also a colour-wise match with the queue's suffix |
| SpellCaster.SameColourDifferentNoteDoesNotMatch | Assets/_Game/Scripts/MelodySystem/SpellCasterSystem.cs:100 | a distinct note object of the same colour does not match, although the colours are the same |
| SpellCaster.FirstMatchNotLongest | Assets/_Game/Scripts/MelodySystem/SpellCasterSystem.cs:78-89 | with inventory [[b], [r, b]] and queue [g, r, b] the first spell wins although the second, longer one matches too |
| SpellCaster.SpellCasterSystem.constructor | Assets/_Game/Scripts/MelodySystem/SpellCasterSystem.cs:12-24 | the queue starts empty with no ready spell, and the invariant holds |
| SpellCaster.SpellCasterSystem.AddNoteToQueue | Assets/_Game/Scripts/MelodySystem/SpellCasterSystem.cs:56-71 | an out-of-range or empty key changes nothing; otherwise the queue is pushed and the ready spell is the first matching spell; the queue bound and the ready spell's validity are kept |
| SpellCaster.SpellCasterSystem.CheckForMatches | Assets/_Game/Scripts/MelodySystem/SpellCasterSystem.cs:73-90 | the ready spell becomes the first inventory spell that matches the queue, or none |
| SpellCaster.SpellCasterSystem.TryCastSpell | Assets/_Game/Scripts/MelodySystem/SpellCasterSystem.cs:105-122 | with a ready spell it is cast, the whole queue is emptied and nothing is ready; without one nothing changes |
| SpellCaster.SpellCasterSystem.LootNewSpell | Assets/_Game/Scripts/MelodySystem/SpellCasterSystem.cs:124-132 | a generated melody is appended even if a duplicate exists; when the tier has no usable rule the inventory is unchanged; queue and ready spell are untouched |
| Generator.FindRule | Assets/_Game/Scripts/MelodySystem/ProceduralGenerator.cs:32 | the first rule for the tier when there is one, otherwise the all-zero default rule (maxCost 0) |
| Generator.Grow | Assets/_Game/Scripts/MelodySystem/ProceduralGenerator.cs:42-56 | the extension loop never removes a note and adds at most one note per remaining iteration of the 50 allowed |
| Generator.GrowShape | Assets/_Game/Scripts/MelodySystem/ProceduralGenerator.cs:42-56 | the extension loop keeps the notes already drawn, adds only catalogue notes and stops at 4 notes |
| Generator.GrowCostBound | Assets/_Game/Scripts/MelodySystem/ProceduralGenerator.cs:43-50 | an extension is added only when it fits, so a cost within maxCost stays within it |
| Generator.LootShape | Assets/_Game/Scripts/MelodySystem/ProceduralGenerator.cs:38-56 | the loot holds 2 to 4 catalogue notes, begins with the two unconditional ones, and stays within maxCost whenever those two do |
| Generator.MinCostNotGuaranteed | Assets/_Game/Scripts/MelodySystem/ProceduralGenerator.cs:42-56 | with cost-1 notes and a rule demanding 10, generation stops at 4 notes costing 4, below minCost |
| Generator.MandatoryNotesMayExceedMax | Assets/_Game/Scripts/MelodySystem/ProceduralGenerator.cs:38-39 | the two unconditional notes can exceed maxCost (8 > 3) |
| Generator.AddRandomNote | Assets/_Game/Scripts/MelodySystem/ProceduralGenerator.cs:62-67 | the drawn note is appended and the running cost stays equal to the total cost |
| Generator.GenerateLoot | Assets/_Game/Scripts/MelodySystem/ProceduralGenerator.cs:26-60 | no melody exactly when the tier's rule has maxCost 0; otherwise tier as asked, level 1, the two drawn notes first, 2 to 4 catalogue notes, the sequence the extension loop grows, and cost at most maxCost when the first two fit |
| Builder.BuildSpell | Assets/_Game/Scripts/MelodySystem/SpellBuilder.cs:99-183 | under two notes the default payload; otherwise the form is note 1's and the effect note 0's, whatever the extensions |
| Builder.ApplyExtension | Assets/_Game/Scripts/MelodySystem/SpellBuilder.cs:185-212 | a Red, Blue or Green extension keeps the form and the effect; a Yellow note reaching it changes nothing |
| Builder.ApplyYellowLogic | Assets/_Game/Scripts/MelodySystem/SpellBuilder.cs:214-229 | a Yellow extension keeps the form, the effect and the power, and leaves luck alone on anything but a buff |
| Builder.Extend | Assets/_Game/Scripts/MelodySystem/SpellBuilder.cs:164-177 | the extension loop, whatever the colours, keeps the form and the effect the payload had before it |
| Builder.BaseStats | Assets/_Game/Scripts/MelodySystem/SpellBuilder.cs:116-149 | note 1's colour picks the form; the defaults (one burst, no pierce, forward only, no decay or knockback) are kept |
| Builder.Scaled | Assets/_Game/Scripts/MelodySystem/SpellBuilder.cs:116-162 | before the extensions the form comes from note 1 and the effect from note 0 |
| Builder.ExtendKeepsKind | Assets/_Game/Scripts/MelodySystem/SpellBuilder.cs:165-177 | extensions never change the form, the effect, the name, the decay or the knockback |
| Builder.ExtendRed | Assets/_Game/Scripts/MelodySystem/SpellBuilder.cs:189-194 | r Red extensions multiply power by 1.5^r and add r pierces to a projectile only |
| Builder.ExtendBlue | Assets/_Game/Scripts/MelodySystem/SpellBuilder.cs:196-200 | b Blue extensions multiply size by 1.4^b and add 2·b to the duration, on every form |
| Builder.ExtendGreen | Assets/_Game/Scripts/MelodySystem/SpellBuilder.cs:202-210 | g Green extensions add g bursts to a projectile, multiply an area's tick rate by 0.7^g and otherwise the move speed by 1.2^g |
| Builder.ExtendYellow | Assets/_Game/Scripts/MelodySystem/SpellBuilder.cs:214-229 | y Yellow extensions add 0.2·y loot luck to a buff; on other forms the directions follow the running Yellow count |
| Builder.BuildSpellBroken | Assets/_Game/Scripts/MelodySystem/SpellBuilder.cs:104-113 | under two notes: the broken name, forward only, one burst, no pierce, no power |
| Builder.BuildSpellFormAndEffect | Assets/_Game/Scripts/MelodySystem/SpellBuilder.cs:116-179 | form from note 1 (Green projectile, Blue area, Red beam, Yellow buff), effect from note 0 (Green heal, Blue slow, Red damage, Yellow shield), the name records both with the level |
| Builder.BuildSpellRed | Assets/_Game/Scripts/MelodySystem/SpellBuilder.cs:151-194 | power = base × (1 + (level − 1)·powerPerLevel) × 1.5^(Red extensions); pierce = Red extensions on a projectile, else 0 |
| Builder.BuildSpellBlue | Assets/_Game/Scripts/MelodySystem/SpellBuilder.cs:196-200 | size = base size × 1.4^(Blue extensions); duration = base duration + 2 per Blue extension |
| Builder.BuildSpellGreen | Assets/_Game/Scripts/MelodySystem/SpellBuilder.cs:127-210 | burst = 1 + Green extensions on a projectile, else 1; an area's tick rate is the settings' tick interval × 0.7^g; a beam's is the ramp-up speed; projectile and buff keep 0 |
| Builder.BuildSpellYellow | Assets/_Game/Scripts/MelodySystem/SpellBuilder.cs:214-229 | a buff gains 0.2 luck per Yellow and keeps [forward]; other forms get forward, then back, then right and left once; never a duplicate direction |
| Builder.BuildSpellOrderIndependent | Assets/_Game/Scripts/MelodySystem/SpellBuilder.cs:164-177 | only notes 0 and 1, the level and how many extensions of each colour there are matter; reordering extensions gives the same payload |
| Builder.ExtendOrderIndependent | Assets/_Game/Scripts/MelodySystem/SpellBuilder.cs:166-177 | two extension lists with the same number of notes of each colour turn the same starting payload into the same payload |
| Combat.TickInterval | Assets/_Game/Scripts/Player/Beam/JuicyBeam.cs:82 | the interval is positive: the reciprocal of a positive rate, otherwise 99 |
| Dummy.CombatDuration | Assets/_Game/Scripts/Dummyes/DummyController.cs:197-203 | a fight shorter than 0.1 s counts as exactly 1 s; any longer fight counts as its measured length, so the length is always at least 0.1 s |
| Dummy.PrinceIgnoresDamageAndSlow | Assets/_Game/Scripts/Dummyes/DummyController.cs:88-143 | a prince's state is unchanged by damage and by slow |
| Dummy.EnemyIgnoresHealAndShield | Assets/_Game/Scripts/Dummyes/DummyController.cs:237-249 | an enemy's state is unchanged by healing and by shields |
| Dummy.DamageAccounting | Assets/_Game/Scripts/Dummyes/DummyController.cs:93-115 | the shield takes min(shield, raw amount) and stays ≥ 0; shield and health loss together are the effective damage (×1.5 frozen); the health loss is added to the total; the dummy deactivates exactly at health ≤ 0 |
| Dummy.DamageExample | Assets/_Game/Scripts/Dummyes/DummyController.cs:93-112 | shield 30, health 100, 50 raw damage: shield 0, health 80 |
| Dummy.FrozenDamagePassesShield | Assets/_Game/Scripts/Dummyes/DummyController.cs:93-112 | frozen, the shield absorbs the raw amount: shield 30 hit for 20 leaves shield 10 and health 90 |
| Dummy.DeathDoesNotClampHealth | Assets/_Game/Scripts/Dummyes/DummyController.cs:108-115 | health 10 hit for 50 ends at −40 and inactive; health is not clamped |
| Dummy.SlowAccumulation | Assets/_Game/Scripts/Dummyes/DummyController.cs:126-150 | while frozen nothing changes; otherwise slow adds up, and at 100 or more it clamps to 100 and freezes for freezeDuration; a slow in [0, 100] stays there |
| Dummy.RecoveryBehaviour | Assets/_Game/Scripts/Dummyes/DummyController.cs:164-178 | frozen, the timer drops by dt and the dummy thaws with slow 0 once it reaches 0; otherwise slow decays by slowDecayRate·dt, floored at 0, never rising |
| Dummy.HealCapped | Assets/_Game/Scripts/Dummyes/DummyController.cs:237-244 | healing a prince gives min(health + amount, maxHealth) and adds the gain to the healing total |
| Dummy.CombatTotalsResetOnEntry | Assets/_Game/Scripts/Dummyes/DummyController.cs:182-192 | a hit records its time; only a hit that starts a fight resets the start time and the totals |
| Dummy.RespawnResets | Assets/_Game/Scripts/Dummyes/DummyController.cs:260-266 | respawn restores maxHealth (a fifth for a prince), clears shield, slow and freeze, and reactivates |
| Dummy.DummyController.constructor | Assets/_Game/Scripts/Dummyes/DummyController.cs:57-76 | a dummy starts at its start health with everything else zero and out of combat |
| Dummy.DummyController.CheckCombatStart | Assets/_Game/Scripts/Dummyes/DummyController.cs:182-192 | the new state is the combat-entry step of the old one |
| Dummy.DummyController.TakeDamage | Assets/_Game/Scripts/Dummyes/DummyController.cs:88-116 | the new state is the damage step of the old one |
| Dummy.DummyController.ApplySlow | Assets/_Game/Scripts/Dummyes/DummyController.cs:126-143 | the new state is the slow step of the old one; the duration argument is ignored |
| Dummy.DummyController.StartFreeze | Assets/_Game/Scripts/Dummyes/DummyController.cs:147-150 | frozen with the timer at freezeDuration, nothing else changed |
| Dummy.DummyController.BreakFreeze | Assets/_Game/Scripts/Dummyes/DummyController.cs:157-162 | unfrozen with slow 0, nothing else changed |
| Dummy.DummyController.HandleStatusRecovery | Assets/_Game/Scripts/Dummyes/DummyController.cs:164-178 | the new state is the recovery step of the old one |
| Dummy.DummyController.HandleDPSLogic | Assets/_Game/Scripts/Dummyes/DummyController.cs:194-220 | a fight quiet for longer than combatResetTime ends and reports its rates when one is positive; otherwise nothing changes and there is no report |
| Dummy.DummyController.Update | Assets/_Game/Scripts/Dummyes/DummyController.cs:78-84 | one frame: the fight-end check, then the recovery step, with the fight-end report |
| Dummy.DummyController.Heal | Assets/_Game/Scripts/Dummyes/DummyController.cs:237-244 | the new state is the heal step of the old one |
| Dummy.DummyController.AddShield | Assets/_Game/Scripts/Dummyes/DummyController.cs:245-249 | the new state is the shield step of the old one |
| Dummy.DummyController.Die | Assets/_Game/Scripts/Dummyes/DummyController.cs:259 | the dummy is deactivated, nothing else changed |
| Dummy.DummyController.Respawn | Assets/_Game/Scripts/Dummyes/DummyController.cs:260-266 | the new state is the respawn step of the old one |
| Dummy.DummyController.Receive | Assets/_Game/Scripts/Dummyes/IDamagable.cs:3-9 | each interface call a resolver makes applies the matching step |
| Stats.ExhaustedRegenOnlyCountsDown | Assets/_Game/Scripts/Player/PlayerStats.cs:41-50 | exhausted, a regeneration frame only runs the timer down, ending exhaustion once it reaches 0 |
| Stats.RegenCapped | Assets/_Game/Scripts/Player/PlayerStats.cs:54-59 | rested, regeneration adds staminaRegenRate·dt capped at maxStamina, and a full bar stays as it is |
| Stats.RestedStaysRested | Assets/_Game/Scripts/Player/PlayerStats.cs:38-60 | regeneration never exhausts a rested player, over any number of frames |
| Stats.ExhaustionEnds | Assets/_Game/Scripts/Player/PlayerStats.cs:41-50 | with frames of positive length, enough frames to cover the timer end exhaustion |
| Stats.ConsumeWhileExhausted | Assets/_Game/Scripts/Player/PlayerStats.cs:71 | spending while exhausted changes nothing |
| Stats.ConsumeBehaviour | Assets/_Game/Scripts/Player/PlayerStats.cs:69-83 | spending to 0 or less clamps to 0, exhausts with a full timer and blocks every action; otherwise it subtracts; stamina within [0, max] stays there |
| Stats.AffordableCostLeavesStamina | Assets/_Game/Scripts/Player/PlayerStats.cs:64-83 | an affordable cost below the stamina never exhausts |
| Stats.DamageRouting | Assets/_Game/Scripts/Player/PlayerStats.cs:108-126 | shielded, damage costs half in stamina (nothing if exhausted) and never health; unshielded, health drops, floored at 0 |
| Stats.HealCapped | Assets/_Game/Scripts/Player/PlayerStats.cs:128-133 | healing never exceeds maxHealth and adds the whole amount when it fits |
| Stats.PlayerStats.constructor | Assets/_Game/Scripts/Player/PlayerStats.cs:26-31 | full health and stamina, rested and unshielded |
| Stats.PlayerStats.HandleStaminaRegen | Assets/_Game/Scripts/Player/PlayerStats.cs:38-60 | the new state is the regeneration step of the old one |
| Stats.PlayerStats.HasStamina | Assets/_Game/Scripts/Player/PlayerStats.cs:64-67 | true exactly when the player is not exhausted and has at least the amount |
| Stats.PlayerStats.ConsumeStamina | Assets/_Game/Scripts/Player/PlayerStats.cs:69-83 | the new state is the spending step of the old one |
| Stats.PlayerStats.ConsumeStaminaOverTime | Assets/_Game/Scripts/Player/PlayerStats.cs:85-96 | the spending step for amountPerSecond·dt |
| Stats.PlayerStats.StartExhaustion | Assets/_Game/Scripts/Player/PlayerStats.cs:98-104 | exhausted with the timer at exhaustionDuration, nothing else changed |
| Stats.PlayerStats.SetShielded | Assets/_Game/Scripts/Player/PlayerStats.cs:19 | only the shielded flag changes |
| Stats.PlayerStats.TakeDamage | Assets/_Game/Scripts/Player/PlayerStats.cs:108-126 | the new state is the damage step of the old one |
| Stats.PlayerStats.Heal | Assets/_Game/Scripts/Player/PlayerStats.cs:128-133 | the new state is the heal step of the old one |
| Stats.PlayerStats.AddShield | Assets/_Game/Scripts/Player/PlayerStats.cs:135 | nothing changes |
| Stats.PlayerStats.ApplySlow | Assets/_Game/Scripts/Player/PlayerStats.cs:136 | nothing changes |
| Beam.NearestWall | Assets/_Game/Scripts/Player/Beam/JuicyBeam.cs:169-181 | the result is at most the bound, no wall below the bound is nearer, and it is the bound or some wall's distance |
| Beam.BeamLengthClipping | Assets/_Game/Scripts/Player/Beam/JuicyBeam.cs:167-182 | the full range when no wall is nearer; otherwise the nearest wall's distance plus the visual penetration |
| Beam.TickHits | Assets/_Game/Scripts/Player/Beam/JuicyBeam.cs:105-146 | a tick makes at most one call per enemy or prince hit |
| Beam.TickCountsValues | Assets/_Game/Scripts/Player/Beam/JuicyBeam.cs:110-119 | after the loop every target hit has its old count (0 if new) plus one per hit; other objects keep theirs |
| Beam.OccurrencesOfMissed | Assets/_Game/Scripts/Player/Beam/JuicyBeam.cs:110-119 | an object not hit as a target in the tick is counted 0 times |
| Beam.OccurrencesOfHit | Assets/_Game/Scripts/Player/Beam/JuicyBeam.cs:110-119 | an object hit as a target is counted at least once |
| Beam.TrackingAfterTick | Assets/_Game/Scripts/Player/Beam/JuicyBeam.cs:110-163 | after a tick the tracked objects are exactly the targets hit in it, each at its previous count (0 if new) plus its hits, so at least 1 |
| Beam.RampMultiplierGrows | Assets/_Game/Scripts/Player/Beam/JuicyBeam.cs:123-124 | the ramp 1 + (count·interval)²·rampUpSpeed is at least 1 and grows with the count |
| Beam.DistanceDecayOrder | Assets/_Game/Scripts/Player/Beam/JuicyBeam.cs:127-131 | the first target in distance order gets share 1, and a later one never more than an earlier one |
| Beam.TickHitsTargets | Assets/_Game/Scripts/Player/Beam/JuicyBeam.cs:105-146 | a tick makes at most one call per collider, each on a damageable enemy or prince in the box; a slow beam only calls ApplySlow(10, 0.2) |
| Beam.TickHitsAppend | Assets/_Game/Scripts/Player/Beam/JuicyBeam.cs:110-142 | a hit on a damageable enemy or prince adds exactly one call, whose power is the payload power × the decay share of its rank × the ramp of its new count |
| Beam.BeamTicksFromRampUpSpeed | Assets/_Game/Scripts/Player/Beam/JuicyBeam.cs:82 | a beam ticks at the settings' ramp-up speed read as a rate |
| Beam.JuicyBeam.constructor | Assets/_Game/Scripts/Player/Beam/JuicyBeam.cs:16-34 | visual penetration and ramp-up speed 0.5, no tracked targets, not initialised |
| Beam.JuicyBeam.Initialize | Assets/_Game/Scripts/Player/Beam/JuicyBeam.cs:42-64 | the payload, its duration and length are taken, the age is 0 and the tracking is cleared; the tick timer is kept |
| Beam.JuicyBeam.Update | Assets/_Game/Scripts/Player/Beam/JuicyBeam.cs:68-77 | nothing before initialisation, the tracking included; otherwise it ages by dt, the length is the clipped beam length, and the tick logic runs: at or past the interval the tick's calls, the tracking restricted to the targets hit and timer 0, else only the timer advances; payload, lifetime and initialisation are kept |
| Beam.JuicyBeam.CalculateCollision | Assets/_Game/Scripts/Player/Beam/JuicyBeam.cs:167-182 | the length becomes the beam length for the ray's hits |
| Beam.JuicyBeam.HandleTickLogic | Assets/_Game/Scripts/Player/Beam/JuicyBeam.cs:79-89 | at or past the interval the tick's calls are made, the tracking is updated and the timer restarts at 0; otherwise only the timer advances |
| Beam.JuicyBeam.ApplyEffectArea | Assets/_Game/Scripts/Player/Beam/JuicyBeam.cs:91-164 | the calls are the tick's specified calls (power × decay of rank × ramp of count) and the tracking keeps exactly the targets hit |
| Beam.JuicyBeam.ForgetMissedTargets | Assets/_Game/Scripts/Player/Beam/JuicyBeam.cs:150-163 | the counts of objects not hit in the tick are removed and the rest kept |
| Area.ExpansionReachesRadius | Assets/_Game/Scripts/Player/Area/SpellAreaEffect.cs:59-61 | the disc starts at scale 0.1 and after 0.5 s its radius (half the scale) is exactly maxRadius |
| Area.ExpansionGrows | Assets/_Game/Scripts/Player/Area/SpellAreaEffect.cs:59-61 | the scale stays between 0.1 and 2·maxRadius and never shrinks with age |
| Area.AreaCalls | Assets/_Game/Scripts/Player/Area/SpellAreaEffect.cs:79-94 | a tick makes at most one call per collider, and every call is the same fixed call of the effect at the payload's power: no ramp and no decay |
| Area.AreaCallsTargets | Assets/_Game/Scripts/Player/Area/SpellAreaEffect.cs:79-94 | one call per damageable enemy or prince in the disc, on such a collider, each the effect's call: the power for Damage, Heal and Shield, ApplySlow(30, 1.5) for Slow |
| Area.AreaCallsIgnoreOthers | Assets/_Game/Scripts/Player/Area/SpellAreaEffect.cs:81-82 | colliders that are neither enemies nor princes never change a tick's calls |
| Area.GreenSlowsAreaTicks | Assets/_Game/Scripts/MelodySystem/SpellBuilder.cs:206-207 | more Green extensions on an area give a longer tick interval |
| Area.AreaTickRate | Assets/_Game/Scripts/MelodySystem/SpellBuilder.cs:132-207 | an area's tick rate is the settings' tick interval × 0.7 per Green extension |
| Area.SelfBuffTicksEvery99Seconds | Assets/_Game/Scripts/Player/Buff/SpellBuffEffect.cs:47 | a self buff's interval is always 99 s |
| Area.SpellAreaEffect.constructor | Assets/_Game/Scripts/Player/Area/SpellAreaEffect.cs:7-11 | not initialised, age and timer 0 |
| Area.SpellAreaEffect.Initialize | Assets/_Game/Scripts/Player/Area/SpellAreaEffect.cs:22-50 | maxRadius is the payload's size and the scale starts at 0.1 |
| Area.SpellAreaEffect.Update | Assets/_Game/Scripts/Player/Area/SpellAreaEffect.cs:52-72 | nothing before initialisation; otherwise it ages, the scale is the expansion at that age, and at or past the interval the tick's calls are made and the timer restarts at 0 with no carry-over |
| Area.SpellAreaEffect.DoAreaTick | Assets/_Game/Scripts/Player/Area/SpellAreaEffect.cs:74-106 | the calls are the tick's specified calls for the colliders in the disc |
| Buff.BuffTickEffect | Assets/_Game/Scripts/Player/Buff/SpellBuffEffect.cs:56-67 | a Heal buff heals by the power, capped at maxHealth; Shield, Damage and Slow buffs leave the stats unchanged |
| Buff.SpellBuffEffect.constructor | Assets/_Game/Scripts/Player/Buff/SpellBuffEffect.cs:5-8 | not initialised, timer 0, no stats |
| Buff.SpellBuffEffect.Initialize | Assets/_Game/Scripts/Player/Buff/SpellBuffEffect.cs:13-36 | the payload and the stats found on the target (or none) are kept |
| Buff.SpellBuffEffect.Update | Assets/_Game/Scripts/Player/Buff/SpellBuffEffect.cs:38-54 | at or past the interval the caster's stats take one buff tick and the timer restarts at 0; otherwise only the timer advances; nothing before initialisation |
| Buff.SpellBuffEffect.ApplyBuffTick | Assets/_Game/Scripts/Player/Buff/SpellBuffEffect.cs:56-67 | the caster's stats, if found, take one buff tick |
| Projectile.TargetTagFor | Assets/_Game/Scripts/MelodySystem/SmartProjectile.cs:26-29 | princes exactly for Heal and Shield, enemies exactly for Damage and Slow |
| Projectile.PenetrationCountdown | Assets/_Game/Scripts/MelodySystem/SmartProjectile.cs:88-97 | with penetration n the first n hits each spend one and the projectile survives; hit n + 1 destroys it and the counter never goes below 0 |
| Projectile.StaysDestroyed | Assets/_Game/Scripts/MelodySystem/SmartProjectile.cs:88-97 | once spent, further hits keep the counter at 0 and the projectile destroyed |
| Projectile.SmartProjectile.constructor | Assets/_Game/Scripts/MelodySystem/SmartProjectile.cs:9 | hit threshold 1.5, not initialised, not destroyed |
| Projectile.SmartProjectile.Initialize | Assets/_Game/Scripts/MelodySystem/SmartProjectile.cs:20-33 | the counter starts at the payload's penetration and the tag follows the effect |
| Projectile.SmartProjectile.Update | Assets/_Game/Scripts/MelodySystem/SmartProjectile.cs:41-75 | an initialised projectile within hitThreshold of its target hits it; otherwise counter and flag are unchanged |
| Projectile.SmartProjectile.OnTriggerEnter | Assets/_Game/Scripts/MelodySystem/SmartProjectile.cs:77-81 | a contact hits only when initialised and the tag is the target tag |
| Projectile.SmartProjectile.HitTarget | Assets/_Game/Scripts/MelodySystem/SmartProjectile.cs:83-98 | one hit: spend a penetration, or be destroyed when none is left |
| Parry.Classify | Assets/_Game/Scripts/Player/ParryShield.cs:71-89 | a contact is ignored exactly when it is neither an enemy nor an enemy attack; a parry exactly within the window (inclusive), a block exactly after it |
| Parry.ResponseEffects | Assets/_Game/Scripts/Player/ParryShield.cs:71-134 | a parry deals exactly counterDamage to the damageable met and notifies the owner's parry; a block deals nothing, destroys exactly enemy attacks and notifies the owner's block; an ignored contact does nothing |
| Parry.WindowBoundaryInclusive | Assets/_Game/Scripts/Player/ParryShield.cs:79 | a contact at exactly the window's end is a parry, any later one a block |
| Parry.ParryShield.constructor | Assets/_Game/Scripts/Player/ParryShield.cs:6 | counter damage 80 |
| Parry.ParryShield.Setup | Assets/_Game/Scripts/Player/ParryShield.cs:28-40 | the owner, the window and the creation time are stored |
| Parry.ParryShield.OnTriggerEnter | Assets/_Game/Scripts/Player/ParryShield.cs:71-89 | the response is the specified response at the bubble's age |
| Parry.ParryShield.PerformCounter | Assets/_Game/Scripts/Player/ParryShield.cs:91-110 | exactly counterDamage to the enemy's damageable, if it has one |
| Parry.ParryShield.PerformBlock | Assets/_Game/Scripts/Player/ParryShield.cs:112-134 | the blocked object is destroyed exactly when it is an enemy attack |
| Hitbox.HitOncePerSwing | Assets/_Game/Scripts/Player/BaseAttackHitbox.cs:18-55 | over a swing no object takes damage twice; every call is TakeDamage(damageAmount); the list holds exactly the damaged objects, each a solid, non-player contact with a damageable |
| Hitbox.SecondContactIgnored | Assets/_Game/Scripts/Player/BaseAttackHitbox.cs:23 | touching an already-hit object again changes nothing |
| Hitbox.BasicAttackHitbox.constructor | Assets/_Game/Scripts/Player/BaseAttackHitbox.cs:8 | the hit list starts empty |
| Hitbox.BasicAttackHitbox.Setup | Assets/_Game/Scripts/Player/BaseAttackHitbox.cs:11-16 | damage and knockback are stored and the hit list emptied |
| Hitbox.BasicAttackHitbox.OnTriggerEnter | Assets/_Game/Scripts/Player/BaseAttackHitbox.cs:18-55 | list and calls after the contact are the specified contact step |
| Hitbox.BasicAttackHitbox.Contacts | Assets/_Game/Scripts/Player/BaseAttackHitbox.cs:18-55 | a run of contacts gives the specified swing |
| Controller.Step | Assets/_Game/Scripts/Player/PlayerController.cs:159-461 | a handler pushes only the note of its own action's colour, fires only while casting, and leaves CastingSpell only on the cast's end frame or an attack routine's end |
| Controller.EntriesNeedNormal | Assets/_Game/Scripts/Player/PlayerController.cs:159-413 | the green, blue, red-charge, guard and cast entry points do nothing outside Normal |
| Controller.EntryTransitions | Assets/_Game/Scripts/Player/PlayerController.cs:159-420 | from Normal: Green and Blue attack and push 0 and 1; Red and guard start charging and guarding at now; a cast starts only with a spell ready; a routine end returns to Normal |
| Controller.RedRelease | Assets/_Game/Scripts/Player/PlayerController.cs:266-308 | ignored outside ChargingRed; a short hold returns to Normal with no note; a charged one pushes 2 and stays ChargingRed until the smash ends |
| Controller.GuardRelease | Assets/_Game/Scripts/Player/PlayerController.cs:320-344 | from GuardingYellow it pushes 3 once, repels exactly on a tap, and returns to Normal; elsewhere ignored |
| Controller.CastEvents | Assets/_Game/Scripts/Player/PlayerController.cs:431-461 | the fire frame fires only while casting and keeps the state; the end frame returns to Normal; the safety check fires and ends the cast only while casting |
| Controller.RunPushesOwnNotes | Assets/_Game/Scripts/Player/PlayerController.cs:159-344 | over any run each pushed note is below 4 and comes from an action of its own colour, at most one per action |
| Controller.SafetyNetCanFireTwice | Assets/_Game/Scripts/Player/PlayerController.cs:431-455 | a safety check between the fire frame and the end frame fires the spell a second time; after the end frame it does not |
| Controller.RepressDuringSmashSmashesAgain | Assets/_Game/Scripts/Player/PlayerController.cs:266-308 | a press during a smash is ignored, but its release smashes again with the old charge time |
| Controller.PlayerController.constructor | Assets/_Game/Scripts/Player/PlayerController.cs:51-67 | thresholds 0.5 and 0.2, state Normal |
| Controller.PlayerController.PerformGreenAttack | Assets/_Game/Scripts/Player/PlayerController.cs:159-187 | state and pushed note are the Green step |
| Controller.PlayerController.PerformBlueAttack | Assets/_Game/Scripts/Player/PlayerController.cs:189-232 | state and pushed note are the Blue step |
| Controller.PlayerController.AttackRoutineEnd | Assets/_Game/Scripts/Player/PlayerController.cs:186 | state Normal |
| Controller.PlayerController.StartChargingRed | Assets/_Game/Scripts/Player/PlayerController.cs:234-251 | the state is the Red-press step |
| Controller.PlayerController.ReleaseRedAttack | Assets/_Game/Scripts/Player/PlayerController.cs:266-308 | state and pushed note are the Red-release step |
| Controller.PlayerController.StartGuardingInput | Assets/_Game/Scripts/Player/PlayerController.cs:310-318 | the state is the guard-press step |
| Controller.PlayerController.StopGuardingInput | Assets/_Game/Scripts/Player/PlayerController.cs:320-344 | state, note and repel are the guard-release step |
| Controller.PlayerController.PerformCast | Assets/_Game/Scripts/Player/PlayerController.cs:408-428 | the state is the cast step |
| Controller.PlayerController.CastSafetyCheck | Assets/_Game/Scripts/Player/PlayerController.cs:431-444 | fire and end-of-cast are the safety-check step |
| Controller.PlayerController.OnSpellFireFrame | Assets/_Game/Scripts/Player/PlayerController.cs:448-455 | fires exactly while casting |
| Controller.PlayerController.OnCastEndFrame | Assets/_Game/Scripts/Player/PlayerController.cs:457-461 | state Normal |

## Left out

- Rendering, VFX, UI, colours, popups, floating text, animation, camera shake and debug output are presentation only.
- Names and descriptions are not modelled: a spell's random display name, `logicDescription`, and the builder's name strings, which are the `SpellName` values `Broken` and `Named(effect, form, level)`.
- Movement, rotation, gravity, homing steering and `FindTarget`'s scene search are not modelled. The projectile's `Update` is given the distance to its target, if one was found.
- Knockback forces are not modelled. The builder never sets `knockback`, so it is always 0.
- Physics queries are inputs. The beam's box hits are given already in the ascending-distance order the source sorts them into. The beam's visual length, overlap-box geometry and UV scrolling are not modelled.
- Coroutines, `Invoke`, `WaitForSeconds` and `Destroy(obj, t)` are not real timers:
  - a routine's end is an explicit step (`AttackRoutineEnd`, `CastSafetyCheck`, `OnCastEndFrame`, `Respawn`);
  - the lifetimes set by `Destroy(obj, t)` are not modelled;
  - the dummy's 0.2 s report delay is not modelled;
  - a projectile destroyed by a hit becomes a `destroyed` flag rather than ceasing to receive callbacks.
- `PushNote`, `HasSpellReady`, `FireCurrentSpell`, `SetChanneling`, `OnParrySuccess` and `OnShieldHit` have no body in the code modelled here. A push, a fire and the parry/block notifications are outputs, and `HasSpellReady` is an input.
- The buff's `GetComponent` and `GetComponentInParent` lookup is given as its result: a `PlayerStats` or null.
- The hitbox calls the `IDamageable` found on the touched object or on a parent. The model reports the call against the touched object, so two child colliders of one parent count as two objects. The parry bubble looks only on the touched collider's own object, so for the parry `damageable` means an `IDamageable` on that object.
- `Generator.GenerateLoot`: every `Random.Range` draw must be a catalogue index. The oracle must hold at least 52 draws, the most one generation can ask for.
- Input System bindings and the animation event relay, which only forwards calls, are not modelled.
- `PlayerStats.isShielded` is only written from outside. No code modelled here sets it; `Stats.PlayerStats.SetShielded` stands for that write.
- `Die` on the player only logs and is not modelled.
- The tier rules' `label` and the melody's `spellName` are carried as an unused name or dropped.
- Assets/_Game/Scripts/MelodySystem/NoteDefinition.cs is an older duplicate of the note asset and is not part of this model.
- IEEE `float` rounding is not modelled: all arithmetic is exact over `real`.
