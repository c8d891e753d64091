# gamejam: enemy AI, combat and world objects in Dafny

This project models the gameplay core of a 2D Unity action game. The core
covers the following parts:

- **Enemy state machine.** Each enemy (`EnemyBase`) owns one current state
  object: idle, patrol, chase, attack, strafe, flee or death. The enemy
  changes state by exiting the old state and entering the new one. It runs
  the current state once per frame.
- **Decision layer.** `EnemyAI` acquires the player with hysteresis. It picks
  an action by fixed priority: flee, attack, chase or strafe, then patrol
  or idle. An attack needs an attack token. The `EnemyManager` hands out at
  most a fixed number of tokens and computes separation between enemies.
- **Enemy kinds.** Five kinds build on the base enemy: the charger, the
  tower, the goblin, the skeleton and the ranger. Four standalone AIs have
  state machines of their own: the chain demon, the rage golem, the ghost
  guard and the shadow stalker.
- **Combat records.** `Health`, `Energy`, `DamageInfo` and the destructible
  wall.
- **Weapons.** A base weapon with a cooldown, a ranged weapon with a
  magazine, and three weapons built on them: a sword with combos, an SMG
  firing bursts and a charged sniper rifle.
- **Player and world.** The player's state switching and its mask ability.
  The game and room managers. Pressure plates, iron bars and two
  interactable objects.

How C# becomes Dafny:

- **Values and objects.** Value types (`DamageInfo`, vectors, enums) become
  datatypes. MonoBehaviours whose fields change frame by frame become
  classes. Their methods carry `modifies` clauses, and their `ensures`
  give the new state, case by case, in terms of the old one.
- **Numbers and geometry.** Floating point becomes `real`. Radii are
  compared through squared distance.
- **Inheritance.** It is modelled by composition. A derived enemy holds
  `body: EnemyBase`, a derived weapon holds `weapon: WeaponBase` or
  `gun: RangedWeapon`. Where the source relies on protected access, the
  derived class writes the base fields directly.
- **What the engine supplies.**
  - Frame time is a `dt` parameter.
  - Each random draw is a parameter bounded as Unity's `Random` bounds it
    (the `Dice` record, or a `roll` parameter).
  - Each physics query (overlap circle, collision, the player as sensed
    this frame) is a parameter.
  - A call into the engine is recorded as an intent: a velocity request
    (`Motion`), a spawned-projectile count, or an event log.
- **Logs of hooks and events.** Ghost logs record hooks and events so that
  their order can be stated. Examples are a state's Exit before Enter, or
  a mask ability's activations and deactivations alternating.

## Model

| member | source | states |
|---|---|---|
| DamageInfo.NewDamageInfo | gamejam/Assets/Scripts/Combat/DamageInfo.cs:34-41 | a new record carries the amount, source and type given, with no knockback and no hit point |
| DamageInfo.WithKnockback | gamejam/Assets/Scripts/Combat/DamageInfo.cs:43-47 | the copy carries the new force, and putting the old force back gives the original record, so nothing else changed |
| DamageInfo.WithHitPoint | gamejam/Assets/Scripts/Combat/DamageInfo.cs:49-53 | the copy carries the new hit point and nothing else differs |
| DamageInfo.BuildersCommute | gamejam/Assets/Scripts/Combat/DamageInfo.cs:43-53 | the two builders touch disjoint fields, so applying them in either order gives the same record |
| Health.Clamp | gamejam/Assets/Scripts/Combat/Health.cs:123 | the result lies in [lo, hi] and equals the value whenever the value already does |
| Health.Health.HealthPercent | gamejam/Assets/Scripts/Combat/Health.cs:30-34 | for health within [0, max] the fraction is in [0, 1]; it is positive exactly while the entity is alive |
| Health.Health.KnockbackOf | gamejam/Assets/Scripts/Combat/Health.cs:76-84 | at most one impulse, exactly the hit's knockback force, and only with a rigidbody; a hit without knockback pushes nothing |
| Health.Health.IsInvincible | gamejam/Assets/Scripts/Combat/Health.cs:34 | invincible while the invincibility timer is positive (a one-line query, stated by its definition) |
| Health.Health.IsAlive | gamejam/Assets/Scripts/Combat/Health.cs:32 | alive while health is above zero (a one-line query, stated by its definition; HealthPercent relates it to the fraction shown) |
| Health.Health.constructor | gamejam/Assets/Scripts/Combat/Health.cs:39-45 | full health, not invincible, alive |
| Health.Health.Update | gamejam/Assets/Scripts/Combat/Health.cs:47-57 | the invincibility window runs down only while open; health is unchanged |
| Health.Health.TakeDamage | gamejam/Assets/Scripts/Combat/Health.cs:59-100 | a dead or invincible entity ignores the hit; otherwise health drops by the amount but stays at least zero, the invincibility window opens, and death is signalled exactly when this hit took the last hit point |
| Health.Health.Heal | gamejam/Assets/Scripts/Combat/Health.cs:102-116 | ignored when dead; otherwise health rises by the amount capped at the maximum, the heal is announced only when health rose, and a heal never signals death |
| Health.Health.SetHealth | gamejam/Assets/Scripts/Combat/Health.cs:121-130 | health becomes the value clamped to [0, max]; death is signalled whenever the result is zero |
| Health.Health.ResetHealth | gamejam/Assets/Scripts/Combat/Health.cs:135-139 | back to full health, alive, and the change is announced |
| Health.Health.Die | gamejam/Assets/Scripts/Combat/Health.cs:141-145 | the death event fires once more and nothing else changes |
| Energy.Energy.constructor | gamejam/Assets/Scripts/Combat/Energy.cs:31-34 | the pool starts full with no regeneration delay |
| Energy.Energy.CanAfford | gamejam/Assets/Scripts/Combat/Energy.cs:142-145 | a pool within its bounds can always afford a non-positive cost, and affording a positive cost means it has energy |
| Energy.Energy.HasEnergy | gamejam/Assets/Scripts/Combat/Energy.cs:29 | for a pool within its bounds, there is no energy exactly when the pool is at zero |
| Energy.Energy.Update | gamejam/Assets/Scripts/Combat/Energy.cs:36-61 | while the delay runs only the delay counts down; afterwards a pool below its maximum regains rate times dt, capped at the maximum; with a non-negative rate the pool never shrinks and stays within [0, max] |
| Energy.Energy.TryConsume | gamejam/Assets/Scripts/Combat/Energy.cs:63-88 | succeeds exactly when the pool can afford the amount; a refusal changes nothing; a success takes exactly the amount, restarts the delay and signals depletion exactly when the pool is left empty |
| Energy.Energy.Consume | gamejam/Assets/Scripts/Combat/Energy.cs:90-103 | takes the amount unconditionally but never below zero, and restarts the delay |
| Energy.Energy.AddEnergy | gamejam/Assets/Scripts/Combat/Energy.cs:105-120 | adds up to the maximum; leaving an empty pool is announced as restored |
| Energy.Energy.ResetEnergy | gamejam/Assets/Scripts/Combat/Energy.cs:122-130 | full pool with the delay cleared |
| Energy.Energy.SetMaxEnergy | gamejam/Assets/Scripts/Combat/Energy.cs:132-140 | the new maximum, with the pool cut down to it only if it was above |
| DestructibleWall.DestructibleWall.constructor | gamejam/Assets/Scripts/Environment/DestructibleWall.cs:28-37 | the wall starts at full health |
| DestructibleWall.DestructibleWall.IsAlive | gamejam/Assets/Scripts/Environment/DestructibleWall.cs:26 | standing while its health is above zero (a one-line query, stated by its definition) |
| DestructibleWall.DestructibleWall.TakeDamage | gamejam/Assets/Scripts/Environment/DestructibleWall.cs:39-52 | health drops by the full amount, with no clamp and no guard, and destruction is requested on every hit that leaves it at or below zero |
| GameConstants.DirectionOfAngle | gamejam/Assets/Scripts/Core/GameConstants.cs:45-62 | the four 90-degree segments centred on the axes, as half-open intervals of the raw atan2 angle that cover (-180, 180] without overlap |
| GameConstants.VectorToDirection | gamejam/Assets/Scripts/Core/GameConstants.cs:45-62 | no direction exactly when the vector is shorter than 0.1; otherwise the segment of its angle |
| GameConstants.DirectionToVector | gamejam/Assets/Scripts/Core/GameConstants.cs:64-74 | each of the four directions maps to its unit axis vector, anything else to zero |
| GameConstants.DirectionRoundTrip | gamejam/Assets/Scripts/Core/GameConstants.cs:45-74 | every direction survives the round trip through its vector |
| GameConstants.NoDirectionRoundTrip | gamejam/Assets/Scripts/Core/GameConstants.cs:45-74 | a value that is not a direction maps to zero, and zero maps back to no direction |
| GameManager.GameManager.constructor | gamejam/Assets/Scripts/Core/GameManager.cs:30 | the game starts in the bedroom with nothing announced |
| GameManager.GameManager.ChangeState | gamejam/Assets/Scripts/Core/GameManager.cs:67-76 | a change to the current state is silent; any other change is made and announced once with the previous and the new state |
| GameManager.GameManager.SetPaused | gamejam/Assets/Scripts/Core/GameManager.cs:81-94 | pausing enters Paused; un-pausing always enters Bedroom; the change is announced once with the previous state, and not at all when the state was already the target |
| GameManager.GameManager.HandleCutsceneStart | gamejam/Assets/Scripts/Core/GameManager.cs:99-102 | the game is in Cutscene afterwards; exactly one announcement from the previous state is added, or none when it was already in Cutscene |
| GameManager.GameManager.HandleCutsceneEnd | gamejam/Assets/Scripts/Core/GameManager.cs:104-109 | the game is in Bedroom afterwards; exactly one announcement from the previous state is added, or none when it was already in Bedroom |
| GameManager.GameManager.HandleDungeonEntered | gamejam/Assets/Scripts/Core/GameManager.cs:111-114 | the game is in Dungeon afterwards; exactly one announcement from the previous state is added, or none when it was already in Dungeon |
| RoomManager.GetMaskForRoom | gamejam/Assets/Scripts/Core/RoomManager.cs:62-72 | a mask exactly for the emotion rooms, the mask of the same emotion |
| RoomManager.MaskForRoomInjective | gamejam/Assets/Scripts/Core/RoomManager.cs:62-72 | distinct rooms with masks have distinct masks |
| RoomManager.RoomManager.constructor | gamejam/Assets/Scripts/Core/RoomManager.cs:22 | no current room, nothing announced and no mask equipped |
| RoomManager.RoomManager.EnterRoom | gamejam/Assets/Scripts/Core/RoomManager.cs:45-57 | entering the current room changes nothing; otherwise the room changes, its mask is equipped when a player exists, and the change is announced once |
| RoomManager.RoomManager.EquipMask | gamejam/Assets/Scripts/Core/RoomManager.cs:78-87 | the mask is handed over and announced only when a player was found |
| EnemyManager.Survivors | gamejam/Assets/Scripts/Enemies/EnemyManager.cs:28-39 | the survivors are exactly the entries not destroyed, and the list never grows |
| EnemyManager.SurvivorsKeepOrder | gamejam/Assets/Scripts/Enemies/EnemyManager.cs:28-39 | pruning distributes over concatenation, so survivors keep their relative order |
| EnemyManager.SurvivorsUntouched | gamejam/Assets/Scripts/Enemies/EnemyManager.cs:28-39 | a list with nothing destroyed is left exactly as it was |
| EnemyManager.SurvivorsNoDuplicates | gamejam/Assets/Scripts/Enemies/EnemyManager.cs:28-39 | pruning a list without duplicates leaves it without duplicates |
| EnemyManager.RemoveFirst | gamejam/Assets/Scripts/Enemies/EnemyManager.cs:47-51 | an absent enemy leaves the list alone; nobody else is removed and nobody added; in a list without duplicates the enemy is gone afterwards |
| EnemyManager.Neighbours | gamejam/Assets/Scripts/Enemies/EnemyManager.cs:84-104 | exactly the registered, live enemies other than the subject that lie strictly within the radius |
| EnemyManager.EnemyManager.constructor | gamejam/Assets/Scripts/Enemies/EnemyManager.cs:18-26 | no enemies registered, no tokens held, no player cached |
| EnemyManager.EnemyManager.Update | gamejam/Assets/Scripts/Enemies/EnemyManager.cs:28-39 | destroyed enemies leave both the registry and the token holders; every other entry and the registry order are untouched |
| EnemyManager.EnemyManager.RegisterEnemy | gamejam/Assets/Scripts/Enemies/EnemyManager.cs:41-45 | the enemy is appended once; registering again changes nothing |
| EnemyManager.EnemyManager.UnregisterEnemy | gamejam/Assets/Scripts/Enemies/EnemyManager.cs:47-51 | the enemy leaves the registry and gives up its token |
| EnemyManager.EnemyManager.RequestAttackToken | gamejam/Assets/Scripts/Enemies/EnemyManager.cs:56-67 | a holder is told yes and keeps its token; a newcomer gets one exactly when fewer than the maximum are held; the answer is yes exactly when the enemy holds a token afterwards, and the holders never exceed the maximum |
| EnemyManager.EnemyManager.ReleaseAttackToken | gamejam/Assets/Scripts/Enemies/EnemyManager.cs:72-78 | the token is no longer held; a no-op for a non-holder |
| EnemyManager.EnemyManager.GetSeparationVector | gamejam/Assets/Scripts/Enemies/EnemyManager.cs:84-104 | the contributing enemies are exactly the live registered neighbours strictly within the radius, other than the subject itself; with no contributor the vector is zero |
| EnemyStates.Enter | gamejam/Assets/Scripts/Enemies/States/EnemyStrafeState.cs:14-21 | entering keeps the kind of state; an entered Strafe runs for a drawn 1 to 3 seconds in a direction of +1 or -1, and an entered Idle (EnemyIdleState.cs, Enter) waits 1 to 3 seconds without wandering |
| EnemyStates.RadialCorrection | gamejam/Assets/Scripts/Enemies/States/EnemyStrafeState.cs:52-56 | beyond the attack range plus 2 the enemy closes in, nearer than the range plus 1 it backs off, and in between it only circles |
| EnemyStates.WanderTargetWithinRadius | gamejam/Assets/Scripts/Enemies/States/EnemyIdleState.cs:63 | the wander point lies within 3 units of where the enemy stood |
| EnemyStates.PatrolDestination | gamejam/Assets/Scripts/Enemies/States/EnemyPatrolState.cs:78-85 | for a non-negative radius the destination lies in the ring around the patrol origin (not the enemy) between 0.3 times the radius and the radius |
| EnemyStates.PatrolReachWithinRadius | gamejam/Assets/Scripts/Enemies/States/EnemyPatrolState.cs:81-83 | along the normalised heading the destination is exactly radius times the drawn fraction from the origin; for a non-negative radius that is between 0.3 and 1 times the radius, so its squared distance is between 0.09 and 1 times the radius squared |
| EnemyBase.HooksAfterChange | gamejam/Assets/Scripts/Enemies/EnemyBase.cs:95-102 | one state change (the current state's Exit, if any, then Enter) keeps the hook log alternating and agreeing with the current state |
| EnemyBase.EnemyBase.DistanceToTarget | gamejam/Assets/Scripts/Enemies/EnemyBase.cs:204-211 | the distance to the target, or the largest float without one |
| EnemyBase.EnemyBase.CanAttack | gamejam/Assets/Scripts/Enemies/EnemyBase.cs:50 | the attack cooldown has run out (a one-line query, stated by its definition) |
| EnemyBase.EnemyBase.IsTargetInAttackRange | gamejam/Assets/Scripts/Enemies/EnemyBase.cs:213-216 | true exactly when a target is at most the attack range away |
| EnemyBase.EnemyBase.MeleeHit | gamejam/Assets/Scripts/Enemies/EnemyBase.cs:160-185 | the melee blow carries the attack damage from this enemy and a knockback of 3 along the direction to the target |
| EnemyBase.EnemyBase.constructor | gamejam/Assets/Scripts/Enemies/EnemyBase.cs:52-62 | no state yet, cooldown ready, at rest, hook log empty |
| EnemyBase.EnemyBase.ExitCurrent | gamejam/Assets/Scripts/Enemies/EnemyBase.cs:99 | the current state's Exit, if any: its hook is logged, leaving Idle, Patrol, Chase or Flee stops the enemy, and leaving Attack gives the token back; nothing happens without a state |
| EnemyBase.EnemyBase.ChangeState | gamejam/Assets/Scripts/Enemies/EnemyBase.cs:95-102 | without a new state nothing changes; otherwise the old state is exited and the new one entered, once each and in that order, with no identity check; exiting Attack releases the token |
| EnemyBase.EnemyBase.Start | gamejam/Assets/Scripts/Enemies/EnemyBase.cs:64-71 | the enemy is idle, with an Enter logged |
| EnemyBase.EnemyBase.HandleDeath | gamejam/Assets/Scripts/Enemies/EnemyBase.cs:218-221 | the enemy is in a fresh death state, reached through ChangeState, so the old state's Exit ran first |
| EnemyBase.EnemyBase.TickCooldown | gamejam/Assets/Scripts/Enemies/EnemyBase.cs:79-84 | the cooldown runs down only while positive |
| EnemyBase.EnemyBase.DetectPlayer | gamejam/Assets/Scripts/Enemies/EnemyBase.cs:187-202 | the target is whatever the detection circle finds this frame |
| EnemyBase.EnemyBase.Attack | gamejam/Assets/Scripts/Enemies/EnemyBase.cs:160-185 | refused while the cooldown runs; otherwise the cooldown restarts and, for a melee enemy, a damageable target in range takes the melee blow |
| EnemyBase.EnemyBase.ExecuteIdle | gamejam/Assets/Scripts/Enemies/States/EnemyIdleState.cs:27-67 | a target sends the enemy to Chase; otherwise it waits, arrives within 0.1 of its wander point and stops, or picks a new point within 3 units |
| EnemyBase.EnemyBase.ExecutePatrol | gamejam/Assets/Scripts/Enemies/States/EnemyPatrolState.cs:33-71 | a target sends the enemy to Chase; a finished wait picks a destination around the patrol origin; arriving within 0.3 starts a wait of the wait time give or take half a second |
| EnemyBase.EnemyBase.ExecuteChase | gamejam/Assets/Scripts/Enemies/States/EnemyChaseState.cs:21-52 | losing the target means Idle; during the reaction delay it only counts down; afterwards a target in range means Attack without a token, and otherwise it steers toward the target |
| EnemyBase.EnemyBase.WindUpTick | gamejam/Assets/Scripts/Enemies/States/EnemyAttackState.cs:35-51 | the wind-up timer counts down; exactly when it runs out Attack is called once, the attack is counted and recovery starts with the recovery time; otherwise no combat record changes |
| EnemyBase.EnemyBase.ExecuteAttack | gamejam/Assets/Scripts/Enemies/States/EnemyAttackState.cs:27-63 | losing the target means Idle; the wind-up ends in exactly one Attack call and recovery, and recovery ends in Chase; leaving releases the token |
| EnemyBase.EnemyBase.StrafeTryAttack | gamejam/Assets/Scripts/Enemies/States/EnemyStrafeState.cs:36-41 | a token is asked for exactly when the cooldown is ready and the target is in range; the attack goes ahead exactly when one is granted or there is no manager |
| EnemyBase.EnemyBase.ExecuteStrafe | gamejam/Assets/Scripts/Enemies/States/EnemyStrafeState.cs:23-87 | losing the target means Idle; a granted token means Attack; otherwise it circles at 0.8 of its speed with the radial correction, and when its time runs out it reverses and returns to Chase beyond 0.8 of the detection range; the new state, motion, hook log, collider, attack count and token set are given in every case |
| EnemyBase.EnemyBase.StrafeEngage | gamejam/Assets/Scripts/Enemies/States/EnemyStrafeState.cs:36-87 | with the target in sight: Attack, holding a new token, exactly when the token check lets it through; otherwise the tokens are kept and it circles |
| EnemyBase.EnemyBase.StrafeCircle | gamejam/Assets/Scripts/Enemies/States/EnemyStrafeState.cs:43-87 | circling keeps the hooks and tokens and sets the orbit velocity; a strafe that has run out reverses direction with a new time, or changes to Chase when the target is beyond 0.8 of the detection range |
| EnemyBase.EnemyBase.ExecuteFlee | gamejam/Assets/Scripts/Enemies/States/EnemyFleeState.cs:18-36 | the flee timer counts down whatever the target does; at zero the enemy goes Idle, before that it runs at 1.5 times its speed |
| EnemyBase.EnemyBase.ExecuteDeath | gamejam/Assets/Scripts/Enemies/States/EnemyDeathState.cs:24-33 | the timer counts down, destruction is requested on every tick once it has run out, and the state is never left |
| EnemyBase.EnemyBase.ExecuteState | gamejam/Assets/Scripts/Enemies/EnemyBase.cs:79-93 | dispatches on the current state: whatever it holds, the new state, velocity, hook log, collider, attack count, destroy requests and the manager's tokens are those of that state's own step (nothing changes without a state; a death state is never left); Attack is called only from an attack state in its wind-up, and a call that is not made changes no combat record |
| EnemyBase.EnemyBase.Update | gamejam/Assets/Scripts/Enemies/EnemyBase.cs:79-93 | the cooldown runs down, the target is sensed afresh and the current state takes its own step from the new position and target, which fixes the new state, velocity, hook log, collider, attack count, destroy requests and tokens for every state kind; Attack is called exactly from a wind-up that runs out with the target present; an attack that does not go off leaves the cooled-down timer, one that does restarts it |
| EnemyAI.NextHeld | gamejam/Assets/Scripts/Enemies/AI/EnemyAI.cs:80-118 | a held target is dropped when dead, gone or beyond the lose range; a missing one is acquired within the detection range, liveness not checked |
| EnemyAI.HysteresisHolds | gamejam/Assets/Scripts/Enemies/AI/EnemyAI.cs:80-118 | while a live player stays between the two ranges, a held target stays held and a missing one stays missing for any number of frames |
| EnemyAI.DeadPlayerFlickers | gamejam/Assets/Scripts/Enemies/AI/EnemyAI.cs:80-118 | a dead player within detection range is acquired on one frame and dropped on the next |
| EnemyAI.ShouldFlee | gamejam/Assets/Scripts/Enemies/AI/EnemyAI.cs:175-182 | flee exactly when health is below the threshold, never without health |
| EnemyAI.Decide | gamejam/Assets/Scripts/Enemies/AI/EnemyAI.cs:120-173 | first-match priority: flee, attack when in range and ready, strafe for a ranged enemy too near, chase, then patrol or idle |
| EnemyAI.ChosenState | gamejam/Assets/Scripts/Enemies/AI/EnemyAI.cs:130-143 | an attack decision leads to Attack when granted and Strafe when refused |
| EnemyAI.EnemyAI.constructor | gamejam/Assets/Scripts/Enemies/AI/EnemyAI.cs:58-63 | no target, recorded state Idle, patrol origin where the enemy stands |
| EnemyAI.EnemyAI.StateFor | gamejam/Assets/Scripts/Enemies/AI/EnemyAI.cs:184-221 | each high-level state maps to a state object of the matching kind, and to no other kind; a patrol circles the AI's origin with its configured radius and wait |
| EnemyAI.EnemyAI.OnDeath | gamejam/Assets/Scripts/Enemies/AI/EnemyAI.cs:58-63 | the recorded state becomes Dead |
| EnemyAI.EnemyAI.UpdateTarget | gamejam/Assets/Scripts/Enemies/AI/EnemyAI.cs:80-118 | the held target follows NextHeld |
| EnemyAI.EnemyAI.SetState | gamejam/Assets/Scripts/Enemies/AI/EnemyAI.cs:184-221 | choosing the recorded state again changes nothing on the enemy (state, hooks, velocity, collider, attack count, tokens); otherwise it is recorded and the enemy changes to a fresh state of that kind, stopping when the old state's Exit or the new state's Enter stops it, with the collider off only for Death, the attack count reset and the token given back on leaving Attack |
| EnemyAI.EnemyAI.Choose | gamejam/Assets/Scripts/Enemies/AI/EnemyAI.cs:120-173 | the held target follows NextHeld, the result is the state the decision and the token answer lead to, and a token is taken only when the decision is to attack and it is granted |
| EnemyAI.EnemyAI.Update | gamejam/Assets/Scripts/Enemies/AI/EnemyAI.cs:66-78 | a dead AI changes nothing; otherwise the target is updated, a token is asked for only on an attack decision, and the state the decision and the answer lead to is set; when that state is the recorded one the enemy is untouched, otherwise its new state, hooks, velocity, collider, attack count and tokens are those of the state change |
| Charger.ChargerConfig | gamejam/Assets/Scripts/Enemies/Types/ChargerEnemy.cs:21-35 | the charger's stats as set in Start |
| Charger.ChargeHit | gamejam/Assets/Scripts/Enemies/Types/ChargerEnemy.cs:135-154 | contact damage from the charger, knocked back 5 units away from it |
| Charger.ChargerEnemy.constructor | gamejam/Assets/Scripts/Enemies/Types/ChargerEnemy.cs:21-35 | neither winding up nor charging, with the serialized charge settings, over a melee base with the stats `Start` sets |
| Charger.ChargerEnemy.StartWindup | gamejam/Assets/Scripts/Enemies/Types/ChargerEnemy.cs:73-90 | stopped, wind-up timer running, direction locked toward the target if any |
| Charger.ChargerEnemy.StartCharge | gamejam/Assets/Scripts/Enemies/Types/ChargerEnemy.cs:103-111 | rushing along the locked direction at charge speed for the charge time, cooldown restarted |
| Charger.ChargerEnemy.EndCharge | gamejam/Assets/Scripts/Enemies/Types/ChargerEnemy.cs:123-133 | not charging, stopped |
| Charger.ChargerEnemy.HandleWindup | gamejam/Assets/Scripts/Enemies/Types/ChargerEnemy.cs:92-101 | the wind-up counts down and, once over, the charge starts at once |
| Charger.ChargerEnemy.HandleCharge | gamejam/Assets/Scripts/Enemies/Types/ChargerEnemy.cs:113-121 | the charge counts down and ends when its time is up |
| Charger.ChargerEnemy.OwnTick | gamejam/Assets/Scripts/Enemies/Types/ChargerEnemy.cs:41-70 | a dead charger changes nothing; a charge counts down and stops the charger when over; a wind-up counts down and, once over, starts the charge along the locked direction with the cooldown restarted; otherwise a wind-up starts (stopped, direction locked) exactly when the target is within the attack range plus 0.5 and the cooldown is over, and else it moves toward a target within detection range |
| Charger.ChargerEnemy.Update | gamejam/Assets/Scripts/Enemies/Types/ChargerEnemy.cs:37-71 | the shared tick runs and fixes every base field but the velocity and the cooldown; then the charger's own part: dead, it keeps the tick's velocity and cooldown and all charge fields; a charge or wind-up only continues, a charge start setting the charge velocity and restarting the cooldown; otherwise a wind-up starts exactly when the target is within the attack range plus 0.5 and the cooldown is over |
| Charger.ChargerEnemy.OnCollision | gamejam/Assets/Scripts/Enemies/Types/ChargerEnemy.cs:135-154 | while charging, a damageable object is hit once and the charge ends; any other contact changes nothing |
| Tower.TowerConfig | gamejam/Assets/Scripts/Enemies/Types/TowerEnemy.cs:21-38 | the tower's stats as set in Start: it never moves |
| Tower.BurstSize | gamejam/Assets/Scripts/Enemies/Types/TowerEnemy.cs:89-104 | a whole burst is at least one shot, and exactly the burst count when that is positive |
| Tower.ShotsLeft | gamejam/Assets/Scripts/Enemies/Types/TowerEnemy.cs:89-104 | however many shots are out, a burst fires at least one more |
| Tower.ShotsLeftCount | gamejam/Assets/Scripts/Enemies/Types/TowerEnemy.cs:89-104 | from `fired` shots on, the burst fires up to the burst count, or one shot when it is already reached |
| Tower.BurstShots | gamejam/Assets/Scripts/Enemies/Types/TowerEnemy.cs:89-104 | a whole burst fires max(1, burstCount) shots |
| Tower.TowerEnemy.constructor | gamejam/Assets/Scripts/Enemies/Types/TowerEnemy.cs:21-38 | not bursting, with the serialized burst settings, over a base with the stats `Start` sets and no attack of its own |
| Tower.TowerEnemy.StartBurst | gamejam/Assets/Scripts/Enemies/Types/TowerEnemy.cs:81-87 | a new burst with no shot fired and the first due now; the cooldown restarts |
| Tower.TowerEnemy.FireProjectile | gamejam/Assets/Scripts/Enemies/Types/TowerEnemy.cs:106-125 | one projectile exactly when a prefab is assigned, otherwise none |
| Tower.TowerEnemy.HandleBurst | gamejam/Assets/Scripts/Enemies/Types/TowerEnemy.cs:89-104 | when due, one shot is attempted and counted; the burst ends exactly when the count is reached, after max(1, burstCount) attempts |
| Tower.TowerEnemy.Update | gamejam/Assets/Scripts/Enemies/Types/TowerEnemy.cs:40-66 | a dead tower or one without a target does nothing more; a bursting tower continues its burst (shot timer, shot count, projectiles and end of burst); otherwise a burst starts exactly when the cooldown is over and the target is in range, and without a start the burst state is kept |
| Goblin.GoblinConfig | gamejam/Assets/Scripts/Enemies/Types/GoblinEnemy.cs:25-37 | the goblin's stats as set in Awake |
| Goblin.GoblinEnemy.constructor | gamejam/Assets/Scripts/Enemies/Types/GoblinEnemy.cs:25-37 | ready to charge, with the serialized charge settings, over a melee base with the stats `Awake` sets |
| Goblin.GoblinEnemy.CanCharge | gamejam/Assets/Scripts/Enemies/Types/GoblinEnemy.cs:23 | the charge cooldown is over and no charge is under way (a one-line query, stated by its definition) |
| Goblin.GoblinEnemy.ShouldCharge | gamejam/Assets/Scripts/Enemies/Types/GoblinEnemy.cs:85-98 | only when a charge can start and the target is beyond the attack range but within the charge distance, and the roll is below the aggressiveness |
| Goblin.GoblinEnemy.StartCharge | gamejam/Assets/Scripts/Enemies/Types/GoblinEnemy.cs:51-60 | nothing without a target or while charging or cooling down; otherwise the direction locks and the charge cooldown restarts |
| Goblin.GoblinEnemy.ExecuteCharge | gamejam/Assets/Scripts/Enemies/Types/GoblinEnemy.cs:65-71 | while charging, moves along the locked direction at the boosted speed |
| Goblin.GoblinEnemy.EndCharge | gamejam/Assets/Scripts/Enemies/Types/GoblinEnemy.cs:76-80 | not charging, stopped |
| Goblin.GoblinEnemy.AfterShared | gamejam/Assets/Scripts/Enemies/Types/GoblinEnemy.cs:39-46 | a called attack ends a running charge and stops the goblin, and the charge cooldown runs down while positive |
| Goblin.GoblinEnemy.Update | gamejam/Assets/Scripts/Enemies/Types/GoblinEnemy.cs:39-46 | the shared tick runs and fixes every base field but the velocity; a called attack ends a running charge first, which stops the goblin, and otherwise the tick's velocity stays; the cooldown restarts exactly when the melee attack goes off; then the charge cooldown runs down while positive; no projectile is fired |
| Skeleton.SkeletonConfig | gamejam/Assets/Scripts/Enemies/Types/SkeletonEnemy.cs:26-38 | the skeleton's stats as set in Awake |
| Skeleton.PreferredPosition | gamejam/Assets/Scripts/Enemies/Types/SkeletonEnemy.cs:120-141 | no target: stay; too near: step back; too far: step in; in between: one unit sideways on the drawn side |
| Skeleton.PreferredPositionKeepsDistance | gamejam/Assets/Scripts/Enemies/Types/SkeletonEnemy.cs:120-141 | outside the comfortable band the chosen point lies the preferred distance short of the target on the line to it |
| Skeleton.SkeletonEnemy.constructor | gamejam/Assets/Scripts/Enemies/Types/SkeletonEnemy.cs:26-38 | no burst under way, with the serialized settings, over a melee base with the stats `Awake` sets |
| Skeleton.SkeletonEnemy.ShouldRetreat | gamejam/Assets/Scripts/Enemies/Types/SkeletonEnemy.cs:24 | true exactly when a target is nearer than the retreat distance |
| Skeleton.SkeletonEnemy.FireProjectile | gamejam/Assets/Scripts/Enemies/Types/SkeletonEnemy.cs:72-105 | one projectile when a target and a prefab exist, otherwise none |
| Skeleton.SkeletonEnemy.HandleBurst | gamejam/Assets/Scripts/Enemies/Types/SkeletonEnemy.cs:40-55 | when due one shot goes and one fewer is left; a burst that runs out has fired exactly the burst count |
| Skeleton.SkeletonEnemy.StartBurst | gamejam/Assets/Scripts/Enemies/Types/SkeletonEnemy.cs:61-63 | a full burst is loaded with its first shot due at once |
| Skeleton.SkeletonEnemy.Update | gamejam/Assets/Scripts/Enemies/Types/SkeletonEnemy.cs:40-67 | the shared tick runs and fixes every base field; a called attack deals the base melee blow when it goes off and the target is in reach; an attack that goes off sets up a burst whose first shot leaves on that frame; without an attack, a burst under way fires its next shot when due and nothing changes when no burst is under way |
| Ranger.RangerConfig | gamejam/Assets/Scripts/Enemies/Types/RangerEnemy.cs:16-27 | the ranger's stats as set in Start |
| Ranger.SpacingFor | gamejam/Assets/Scripts/Enemies/Types/RangerEnemy.cs:40-61 | retreat nearer than the retreat distance, approach more than one unit beyond the preferred distance, hold in between |
| Ranger.HoldingRangerIsInRange | gamejam/Assets/Scripts/Enemies/Types/RangerEnemy.cs:16-62 | with the ranger's own settings, it holds exactly when the target is between 3 units and its attack range |
| Ranger.RangerEnemy.constructor | gamejam/Assets/Scripts/Enemies/Types/RangerEnemy.cs:16-27 | the serialized spacing, preferring 5 units and retreating inside 3, over a ranged base with the stats `Start` sets |
| Ranger.RangerEnemy.KeepDistance | gamejam/Assets/Scripts/Enemies/Types/RangerEnemy.cs:36-61 | by the spacing rule: steer away from a target nearer than the retreat distance, move smoothly toward one beyond the preferred distance plus one, otherwise stop |
| Ranger.RangerEnemy.Update | gamejam/Assets/Scripts/Enemies/Types/RangerEnemy.cs:29-92 | the shared tick runs and fixes every base field but the velocity, which it keeps for a dead ranger or one without a target; Attack is called exactly from a wind-up that runs out with the target present, and a called attack goes off exactly with a prefab, a target and a ready cooldown, firing one projectile and dealing no melee damage; a live ranger with a target retreats, approaches or stops by the spacing rule |
| ChainDemon.CycleAt | gamejam/Assets/Scripts/Enemies/AI/ChainDemonAI.cs:137-166 | the cycle is at Waiting exactly at the multiples of 4 |
| ChainDemon.NextOfCycle | gamejam/Assets/Scripts/Enemies/AI/ChainDemonAI.cs:137-166 | the successor of the i-th state of the cycle is its (i+1)-th state |
| ChainDemon.CycleFromWaiting | gamejam/Assets/Scripts/Enemies/AI/ChainDemonAI.cs:56-135 | a run of states that starts waiting and takes successor steps is exactly the cycle Waiting, Grabbing, Dragging, Releasing |
| ChainDemon.ChainDemonAI.constructor | gamejam/Assets/Scripts/Enemies/AI/ChainDemonAI.cs:31-54 | waiting with the chain hidden |
| ChainDemon.ChainDemonAI.EnterNext | gamejam/Assets/Scripts/Enemies/AI/ChainDemonAI.cs:137-166 | the successor becomes current, with its own timer and the chain shown or hidden |
| ChainDemon.ChainDemonAI.Update | gamejam/Assets/Scripts/Enemies/AI/ChainDemonAI.cs:56-135 | without a player nothing happens; each frame stays or moves one step along the cycle; a state that is kept counts its timer down by the frame time, except Waiting, which leaves it alone; a new state starts with its own timer; a heavy enough player is let go at once; otherwise the player is pulled while dragging |
| RageGolem.GolemHit | gamejam/Assets/Scripts/Enemies/AI/RageGolemAI.cs:148-179 | 30 damage from the golem, knocked back 15 units along the charge direction |
| RageGolem.RageGolemAI.constructor | gamejam/Assets/Scripts/Enemies/AI/RageGolemAI.cs:33-47 | patrolling to the right from where it stands |
| RageGolem.RageGolemAI.StartCharge | gamejam/Assets/Scripts/Enemies/AI/RageGolemAI.cs:98-114 | charging but not yet ready, wind-up running, stopped, direction locked toward the player |
| RageGolem.RageGolemAI.Update | gamejam/Assets/Scripts/Enemies/AI/RageGolemAI.cs:49-146 | patrolling, a player strictly within detection range starts a charge (stopped, wind-up timer set, direction locked), else it turns at the patrol distance; charging, it winds up then rushes, and never leaves by itself; stunned, it patrols again when the timer runs out; each case keeps the fields it does not set; without a player nothing but the position changes |
| RageGolem.RageGolemAI.OnCollision | gamejam/Assets/Scripts/Enemies/AI/RageGolemAI.cs:148-179 | a stunned golem ignores contact; otherwise the player is hit in any state, breakables are smashed, and a charging golem is stunned whatever it hit |
| GhostGuard.NextIndex | gamejam/Assets/Scripts/Enemies/AI/GhostGuardAI.cs:80-92 | the next point index stays in range, wrapping after the last |
| GhostGuard.AdvanceBy | gamejam/Assets/Scripts/Enemies/AI/GhostGuardAI.cs:80-92 | the point reached after k arrivals stays in range |
| GhostGuard.AdvanceByWraps | gamejam/Assets/Scripts/Enemies/AI/GhostGuardAI.cs:80-92 | k arrivals take the guard k points round the route, modulo its length |
| GhostGuard.FullLapReturns | gamejam/Assets/Scripts/Enemies/AI/GhostGuardAI.cs:80-92 | a full lap brings the guard back to its starting point |
| GhostGuard.GhostGuardAI.constructor | gamejam/Assets/Scripts/Enemies/AI/GhostGuardAI.cs:31-43 | patrolling toward the first point |
| GhostGuard.GhostGuardAI.Update | gamejam/Assets/Scripts/Enemies/AI/GhostGuardAI.cs:45-123 | reaching a point strictly within 0.3 either starts weeping (roll below the chance) or advances to the next point, and the state timer is touched only when weeping starts; blocking and weeping stand still and return to patrol when their time is up |
| GhostGuard.GhostGuardAI.OnCollision | gamejam/Assets/Scripts/Enemies/AI/GhostGuardAI.cs:145-152 | the player's touch makes the guard block for the full time from any state |
| ShadowStalker.ShadowStalkerAI.constructor | gamejam/Assets/Scripts/Enemies/AI/ShadowStalkerAI.cs:30-48 | spawn point where it stands, lurking and still |
| ShadowStalker.PlayerFacing | gamejam/Assets/Scripts/Enemies/AI/ShadowStalkerAI.cs:87-91 | the player faces the stalker only when facing the side the stalker lies on, and never while the stalker is within 0.3 of straight ahead |
| ShadowStalker.ShadowStalkerAI.Vanish | gamejam/Assets/Scripts/Enemies/AI/ShadowStalkerAI.cs:127-148 | stopped, respawn delay running from the start |
| ShadowStalker.ShadowStalkerAI.Update | gamejam/Assets/Scripts/Enemies/AI/ShadowStalkerAI.cs:50-125 | lurking, a player strictly within detection range starts the stalk; stalking, being watched from near enough makes it vanish, else it creeps closer; vanished, it respawns at the spawn point when the delay is over |
| ShadowStalker.ShadowStalkerAI.OnCollision | gamejam/Assets/Scripts/Enemies/AI/ShadowStalkerAI.cs:150-165 | touching the player hits it and makes the stalker vanish from any state; anything else is ignored |
| WeaponBase.Tick | gamejam/Assets/Scripts/Weapons/WeaponBase.cs:28-35 | a cooldown that is over stays put; a running one never grows over a non-negative frame |
| WeaponBase.RunDownIdle | gamejam/Assets/Scripts/Weapons/WeaponBase.cs:28-35 | a cooldown that is over stays over for any run of frames |
| WeaponBase.CooldownElapses | gamejam/Assets/Scripts/Weapons/WeaponBase.cs:23-50 | a cooldown is over after a run of frames exactly when at least its length has passed, and holds the remainder until then |
| WeaponBase.WeaponBase.constructor | gamejam/Assets/Scripts/Weapons/WeaponBase.cs:10-13 | damage 10, cooldown 0.5, range 1, knockback 2, ready to attack |
| WeaponBase.WeaponBase.CanAttack | gamejam/Assets/Scripts/Weapons/WeaponBase.cs:23 | the weapon's cooldown has run out (a one-line query, stated by its definition) |
| WeaponBase.WeaponBase.WithStats | gamejam/Assets/Scripts/Weapons/WeaponBase.cs:10-13 | the given stats, ready to attack |
| WeaponBase.WeaponBase.Update | gamejam/Assets/Scripts/Weapons/WeaponBase.cs:28-35 | one frame of the cooldown |
| WeaponBase.WeaponBase.Attack | gamejam/Assets/Scripts/Weapons/WeaponBase.cs:40-50 | succeeds exactly when the cooldown is over; a success restarts the cooldown, after which a positive cooldown refuses the next attack; a refusal changes nothing |
| WeaponBase.WeaponBase.CreateDamageInfo | gamejam/Assets/Scripts/Weapons/WeaponBase.cs:68-73 | the weapon's damage, physical, from the wielder, with the weapon's knockback along the direction, at the hit point |
| RangedWeapon.RangedWeapon.constructor | gamejam/Assets/Scripts/Weapons/RangedWeapon.cs:18-21 | the magazine starts at the maximum; ammunition is available exactly when the maximum is not zero |
| RangedWeapon.RangedWeapon.HasAmmo | gamejam/Assets/Scripts/Weapons/RangedWeapon.cs:17 | an unlimited magazine (negative maximum) always has ammunition; a zero-sized one never does |
| RangedWeapon.RangedWeapon.Attack | gamejam/Assets/Scripts/Weapons/RangedWeapon.cs:23-27 | succeeds exactly with ammunition and a ready cooldown; a success fires one projectile with a prefab and uses a round from a finite magazine; the magazine stays in range |
| RangedWeapon.RangedWeapon.PerformAttack | gamejam/Assets/Scripts/Weapons/RangedWeapon.cs:29-57 | without a prefab nothing; otherwise one projectile and, for a finite magazine, one round fewer |
| RangedWeapon.RangedWeapon.AddAmmo | gamejam/Assets/Scripts/Weapons/RangedWeapon.cs:76-82 | a finite magazine gains up to its maximum, never beyond it; an unlimited one is untouched |
| Sword.Pow | gamejam/Assets/Scripts/Weapons/Melee/SwordWeapon.cs:78 | a whole power of a base of at least one is at least one |
| Sword.ComboDamage | gamejam/Assets/Scripts/Weapons/Melee/SwordWeapon.cs:78 | the first combo step hits for the base damage, and with a multiplier of at least one no step hits for less |
| Sword.ComboDamageGrows | gamejam/Assets/Scripts/Weapons/Melee/SwordWeapon.cs:78 | the first combo step hits for the base damage and, with a multiplier of at least one, each step hits at least as hard as the one before |
| Sword.SweepFor | gamejam/Assets/Scripts/Weapons/Melee/SwordWeapon.cs:86-91 | the sweep is symmetric; odd steps start at minus half the arc and even steps at plus half |
| Sword.SweepsAlternate | gamejam/Assets/Scripts/Weapons/Melee/SwordWeapon.cs:86-91 | consecutive combo steps sweep in opposite directions |
| Sword.StruckOnce | gamejam/Assets/Scripts/Weapons/Melee/SwordWeapon.cs:94-123 | a swing frame strikes only eligible colliders not already struck, never one twice, and every eligible overlapping collider ends up struck |
| Sword.SwordWeapon.constructor | gamejam/Assets/Scripts/Weapons/Melee/SwordWeapon.cs:26-37 | damage 12, cooldown 0.35, range 1.5, knockback 3, no combo, not swinging |
| Sword.SwordWeapon.Update | gamejam/Assets/Scripts/Weapons/Melee/SwordWeapon.cs:39-52 | the cooldown runs down; the combo window runs down while open, and the combo is lost when it closes |
| Sword.SwordWeapon.Attack | gamejam/Assets/Scripts/Weapons/Melee/SwordWeapon.cs:54-67 | succeeds exactly when ready and not swinging, and a refusal changes nothing; a success starts a swing with its first frame done, the combo advances up to the maximum, the swing takes that step's damage and sweep, its first frame strikes each eligible overlap once, and the cooldown is the attack cooldown over the attack speed |
| Sword.SwordWeapon.SwingFrame | gamejam/Assets/Scripts/Weapons/Melee/SwordWeapon.cs:69-138 | while swing time remains, the frame's overlaps are struck; afterwards the swing ends with nothing struck |
| Sword.SwordWeapon.StrikeAll | gamejam/Assets/Scripts/Weapons/Melee/SwordWeapon.cs:94-123 | the remembered targets grow by exactly the colliders StruckOnce selects, and each gets one blow of the swing damage |
| Sword.SwingStrikesOnce | gamejam/Assets/Scripts/Weapons/Melee/SwordWeapon.cs:94-123 | over all the frames of a swing, no collider is struck twice and none already struck before is struck again |
| SMG.SMGWeapon.constructor | gamejam/Assets/Scripts/Weapons/Guns/SMGWeapon.cs:19-29 | no burst and no recoil, with the stats set in Awake |
| SMG.SMGWeapon.Attack | gamejam/Assets/Scripts/Weapons/Guns/SMGWeapon.cs:51-61 | succeeds exactly when ready and with ammunition; a success queues a whole burst due now and sets the cooldown to the attack cooldown over the speed; no round used |
| SMG.SMGWeapon.FireBurstShot | gamejam/Assets/Scripts/Weapons/Guns/SMGWeapon.cs:63-86 | with a prefab, one projectile and one recoil step; never a round used |
| SMG.SMGWeapon.Update | gamejam/Assets/Scripts/Weapons/Guns/SMGWeapon.cs:31-49 | a due shot fires and shrinks the burst by one; recoil decays by 5 per second to no less than zero; a completed burst fired exactly the burst count |
| Sniper.Clamp01 | gamejam/Assets/Scripts/Weapons/Guns/SniperWeapon.cs:20 | the result lies in [0, 1] and equals the value inside it |
| Sniper.SniperWeapon.constructor | gamejam/Assets/Scripts/Weapons/Guns/SniperWeapon.cs:22-33 | not charging, with the stats set in Awake |
| Sniper.SniperWeapon.ChargeProgress | gamejam/Assets/Scripts/Weapons/Guns/SniperWeapon.cs:20 | a fraction in [0, 1]; zero exactly when nothing is charged and one exactly when the charge time is reached |
| Sniper.SniperWeapon.Attack | gamejam/Assets/Scripts/Weapons/Guns/SniperWeapon.cs:58-68 | succeeds exactly when ready and with ammunition; a success starts a charge from zero and leaves the cooldown alone |
| Sniper.SniperWeapon.CancelCharge | gamejam/Assets/Scripts/Weapons/Guns/SniperWeapon.cs:73-77 | no charge, timer zero |
| Sniper.SniperWeapon.FireChargedShot | gamejam/Assets/Scripts/Weapons/Guns/SniperWeapon.cs:79-109 | the charge ends and the cooldown starts whether or not a prefab exists; with one, a penetrating projectile fires; no round used |
| Sniper.SniperWeapon.Update | gamejam/Assets/Scripts/Weapons/Guns/SniperWeapon.cs:35-56 | a charge fires exactly when the charged time reaches the charge time; no round used |
| MaskAbility.NeverTwiceInARow | gamejam/Assets/Scripts/Player/MaskAbility.cs:58-81 | in an alternating hook log the same hook never runs twice in a row |
| MaskAbility.MaskAbility.constructor | gamejam/Assets/Scripts/Player/MaskAbility.cs:10-16 | inactive and off cooldown |
| MaskAbility.MaskAbility.IsOnCooldown | gamejam/Assets/Scripts/Player/MaskAbility.cs:19 | the cooldown timer is positive (a one-line query, stated by its definition) |
| MaskAbility.MaskAbility.Activate | gamejam/Assets/Scripts/Player/MaskAbility.cs:58-67 | refused on cooldown or while active; otherwise active for the duration with one activation hook |
| MaskAbility.MaskAbility.Deactivate | gamejam/Assets/Scripts/Player/MaskAbility.cs:72-81 | a no-op when inactive; otherwise inactive, cooldown started, one deactivation hook |
| MaskAbility.MaskAbility.Update | gamejam/Assets/Scripts/Player/MaskAbility.cs:30-53 | cooldown runs down; a used-up duration deactivates; a key press activates when allowed; hooks keep alternating with the active flag |
| PlayerController.HooksAfterChange | gamejam/Assets/Scripts/Player/PlayerController.cs:90-98 | one state change keeps the hook log alternating and agreeing with the state |
| PlayerController.PlayerController.constructor | gamejam/Assets/Scripts/Player/PlayerController.cs:40-57 | no state yet |
| PlayerController.PlayerController.ChangeState | gamejam/Assets/Scripts/Player/PlayerController.cs:90-98 | without a new state nothing; otherwise the old state is remembered and exited, then the new state entered, with no identity check |
| PlayerController.PlayerController.Start | gamejam/Assets/Scripts/Player/PlayerController.cs:59-63 | the player is idle |
| PlayerController.PlayerController.HandleCutsceneStart | gamejam/Assets/Scripts/Player/PlayerController.cs:130-136 | the state is saved, buffered input dropped, and the player frozen |
| PlayerController.PlayerController.HandleCutsceneEnd | gamejam/Assets/Scripts/Player/PlayerController.cs:138-149 | the player is idle afterwards, whatever was saved |
| PressurePlate.PressurePlate.constructor | gamejam/Assets/Scripts/Environment/PressurePlate.cs:13-31 | unpressed, nothing on the plate |
| PressurePlate.PressurePlate.IsActivator | gamejam/Assets/Scripts/Environment/PressurePlate.cs:72-79 | true exactly when the tag is among the activator tags |
| PressurePlate.PressurePlate.OnTriggerEnter | gamejam/Assets/Scripts/Environment/PressurePlate.cs:46-56 | an activator raises the count and presses an unpressed plate; others are ignored |
| PressurePlate.PressurePlate.OnTriggerExit | gamejam/Assets/Scripts/Environment/PressurePlate.cs:58-70 | ignored for non-activators and latched plates; otherwise the count drops, and a pressed plate with nothing left is released |
| PressurePlate.PressurePlate.Press | gamejam/Assets/Scripts/Environment/PressurePlate.cs:81-97 | an unpressed plate becomes pressed and logs exactly one Pressed event, keeping press and release events alternating |
| PressurePlate.PressurePlate.Release | gamejam/Assets/Scripts/Environment/PressurePlate.cs:99-115 | a pressed plate becomes released and logs exactly one Released event, keeping the events alternating |
| IronBars.MoveTowards | gamejam/Assets/Scripts/Environment/IronBars.cs:42-54 | moves by at most the step and never past the target, landing on it when the step reaches |
| IronBars.IronBars.constructor | gamejam/Assets/Scripts/Environment/IronBars.cs:28-40 | open exactly when configured so, raised and passable when open |
| IronBars.IronBars.Update | gamejam/Assets/Scripts/Environment/IronBars.cs:42-54 | the bars slide toward the goal without overshooting and block exactly within 0.1 of the closed position |
| IronBars.IronBars.Open | gamejam/Assets/Scripts/Environment/IronBars.cs:59-70 | open afterwards; the open sound plays only when it was closed and a sound is assigned |
| IronBars.IronBars.Close | gamejam/Assets/Scripts/Environment/IronBars.cs:75-86 | closed afterwards; the close sound plays only when it was open and a sound is assigned |
| IronBars.IronBars.Toggle | gamejam/Assets/Scripts/Environment/IronBars.cs:91-95 | the open flag flips |
| WifeNPC.WifeNPC.constructor | gamejam/Assets/Scripts/Interaction/WifeNPC.cs:11-16 | no interaction yet |
| WifeNPC.StageEvents | gamejam/Assets/Scripts/Interaction/WifeNPC.cs:52-126 | every interaction starts a cutscene and ends by scheduling its end; only the second reveals the mask, and the third and every later one make her leave |
| WifeNPC.WifeNPC.CanInteract | gamejam/Assets/Scripts/Interaction/WifeNPC.cs:34 | she reacts until she has left (a one-line query, stated by its definition) |
| WifeNPC.WifeNPC.InteractionPrompt | gamejam/Assets/Scripts/Interaction/WifeNPC.cs:36-44 | empty once she has left; otherwise the prompt for the current stage, the last prompt serving later stages |
| WifeNPC.WifeNPC.OnInteract | gamejam/Assets/Scripts/Interaction/WifeNPC.cs:46-126 | ignored once she has left; otherwise the count rises by one and that stage plays out; she leaves exactly on the third interaction |
| WifeNPC.WifeNPC.ResetState | gamejam/Assets/Scripts/Interaction/WifeNPC.cs:140-150 | back to before the first interaction |
| GenericInteractable.GenericInteractable.constructor | gamejam/Assets/Scripts/Interaction/GenericInteractable.cs:22 | usable and unused |
| GenericInteractable.GenericInteractable.CanInteract | gamejam/Assets/Scripts/Interaction/GenericInteractable.cs:22 | usable only while switched on, and a one-time object once used is never usable again |
| GenericInteractable.GenericInteractable.OnInteract | gamejam/Assets/Scripts/Interaction/GenericInteractable.cs:25-35 | ignored unless usable; otherwise marked used and its events fire once; a one-time object is used at most once between resets |
| GenericInteractable.GenericInteractable.SetCanInteract | gamejam/Assets/Scripts/Interaction/GenericInteractable.cs:40-43 | interaction switched on or off |
| GenericInteractable.GenericInteractable.Reset | gamejam/Assets/Scripts/Interaction/GenericInteractable.cs:48-51 | the object counts as unused again |

## Left out

- Vector math is left out: normalisation, `Lerp`, rotations and quaternions, sprite flipping and facing. Directions appear only where a contract needs them.
- Physics is left out: rigidbody integration, forces and `OverlapCircle`. What the physics reports (a collision, the colliders overlapped, where a body has moved to) is an input.
- Randomness is left out: every `Random` draw is an input, bounded as Unity bounds it.
- Coroutines are not modelled as time: the flash routines and the mask reveal's delay. Their visible end states are modelled.
- Audio, animation, visuals and the UI are left out; sounds and events are recorded only as logged labels.
- The sniper's laser sight, the SMG's recoil spread angle and the skeleton's inaccuracy are left out, because they only rotate a projectile's direction.
- `GetAimDirection` and `GetAimDirectionWithRecoil` are not modelled, because they are vector math.
- `EnemyBase.FaceTarget`, `ApplySteering`, `GetDirectionToTarget` and `SetTarget` are not part of this model. They are called but not defined in the files modelled; their calls are recorded as motion intents or left out.
- The `MaskType` enum is not part of this model and is written out as a datatype of its own.
- Goblin's recoil impulse on a hit is left out, because it is a physics force.
- ShotgunWeapon, MeleeWeapon, the player's per-state classes, Projectile and the mask subclasses are not part of this model.
- Sniper.SniperWeapon.Update requires a non-negative frame time.
- Health.Health.constructor takes the maximum health as a positive number (`PosReal`), so a zero maximum is excluded. `HealthPercent` divides by the maximum, and a prefab set to zero health is not modelled.
- Skeleton.SkeletonEnemy.Update does not state the ghost count of shots in the current burst. Only the class invariant ties it to the shots left.
- Sniper.SniperWeapon.FireChargedShot requires a positive charge time and attack speed. The source would divide by zero otherwise.
- IronBars.IronBars.Update, and the Update of each standalone AI, require a non-negative frame time, as every Unity frame has.
- Sword.SwordWeapon.Attack runs the swing's first frame inside the call. The source starts a coroutine whose first step runs at once.
- EnemyManager.EnemyManager.GetSeparationVector states which enemies contribute, not the weighted, normalised sum. It does not promise that the sum is non-zero when there are contributors.
- WifeNPC.WifeNPC.InteractionPrompt requires a non-empty prompt list while she is present. The source would throw an index error on an empty list.
- GameManager.GameManager.SetPaused does not model the change to `Time.timeScale`, because that is engine state.
- IronBars.IronBars.constructor requires a non-negative open speed and open height. With negative designer values Unity's `MoveTowards` would push the bars away from their goal, which the model does not follow.
- Energy.Energy.Update promises that the pool never shrinks, and stays within its bounds, only for a non-negative regeneration rate.
- EnemyBase.EnemyBase.DetectPlayer does not bound the sensed distance by the detection range. `OverlapCircle` only finds a player within it, but the sensed target is an input taken as given.
- EnemyStates.ValidDice takes the patrol heading to be a unit vector. Unity normalises `insideUnitCircle`, which is zero only when the draw lands exactly on the centre; the model leaves that draw out.

## Behaviour as coded

- `EnemyBase.ChangeState` has no identity check, so re-entering the current state object runs Exit and Enter again.
- A chasing enemy enters Attack without asking for an attack token, so the number of attacking enemies is not bounded by the manager's capacity.
- A dead player inside the detection range is re-acquired and dropped on alternate frames (`EnemyAI.DeadPlayerFlickers`).
- When the AI's recorded state is stale while the enemy is already attacking, setting Attack again exits that attack state and releases the token just granted.
- `SetPaused(false)` always returns to the bedroom.
- The end of a cutscene always leaves the player idle.
- The SMG and the sniper never consume ammunition.
- The tower always fires at least one shot per burst.
- A pressure plate's count can go negative on an unmatched exit.
