# TPK gameplay state, modelled and verified in Dafny

TPK is a networked multiplayer arena game. The server holds the real state of each
gameplay entity. An owning client updates its own copy first, then asks the server to
apply the same change. This project models four engine-independent scripts of the game:

- **Hero stats** (`hero.dfy`, module `Hero`, from `HeroModel.cs`). The synchronised stat
  record of a hero. It covers the damage rule (defense reduces damage, health is clamped
  to `[0, maxHealth]`), healing, the authority-guarded setters and the `[Command]` methods
  the server runs. The class `HeroModel` has the source's fields, its roles
  (`hasAuthority`, `isServer`, `isLocalPlayer`) and an `outbox`. The outbox lists, in order,
  every command and client RPC this copy has sent. `State()` returns the synchronised
  fields as one `Stats` value. `Apply(s, c)` gives the stats after the server runs command
  `c`. Every authority-guarded setter is proved to do one of two things: with authority,
  produce exactly `Apply(old state, its own command)` and, on a client, send that command;
  without authority, nothing. So the owner's local update and the server's re-application
  of the sent command agree. The exception is `SetModel`: the source's `CmdSetModel` and
  `RpcSetModel` drop the hero type sent (see Findings), and `Apply` takes `CmdSetModel` in
  its corrected form.
- **Artifact** (`artifact.dfy`, module `Artifact`, from `ArtifactController.cs`). The
  scored objective. It is free, carried by a hero, or scored and destroyed. Pickup,
  scoring and the drop on knock-out each have their own guard. The rarity score table
  and its inverse are here too. The carrier is a real `HeroModel` reference, so scoring
  raises that hero's `score`.
- **Pre-phase lobby** (`prephase.dfy`, module `Prephase`, from `PrephaseManager.cs`). The
  lobby states `WaitingForPlayers`, `RoomFull` and `NotActive`, and the countdown, where
  `-1` means inactive. The coroutine `DecreaseCountdownTimer` becomes three methods:
  `StartCountdown` (its run up to the first wait), `Tick` (one resumption after the
  one-second wait) and `RunCountdown` (the loop of ticks until it finishes).
- **Hero manager** (`hero_manager.dfy`, module `HeroManagement`, from `HeroManager.cs`).
  The spawn location table, the first-match hero search, the player transform array and
  the player colours.

`common.dfy` holds the engine value types: `Vec3` positions and `Color` over exact reals,
and `Option`.

Four behaviours of the code that the model follows as written:

- The lobby has no `Active` or `Ended` phase. After the countdown, the state goes back to
  `NotActive` with countdown `-1`.
- A request without authority is silently ignored. No error is raised.
- Delivering a command twice is harmless only for the setter commands
  (`SetterIdempotent`). `CmdHeal` and `CmdTakeDamage` act relative to the current health,
  so a second delivery changes the state again (`HealTwiceHealsTwice`).
- The doc comments of `IsAttackBuffed`, `IsDefBuffed` and `IsSpeedBuffed` say "differs
  from base". The code tests "strictly above base", and the model does the same.

## Model

| member | source | states |
|---|---|---|
| `Hero.Clamp` | TPK/Assets/Scripts/Hero/HeroModel.cs:64-66 | `Mathf.Clamp` on ints. The result lies in [min, max] whenever min <= max. A value already in range is returned unchanged. A value below min gives min, and a value above max gives max. |
| `Hero.ClampMonotone` | TPK/Assets/Scripts/Hero/HeroModel.cs:66 | Clamping keeps order, except in the degenerate case where max < min. |
| `Hero.RoundHalfEven` | TPK/Assets/Scripts/Hero/HeroModel.cs:65 | `Mathf.Round` on the exact quotient num/den. The result is within half a step of the quotient, and on an exact tie it is even. |
| `Hero.RoundHalfEvenUnique` | TPK/Assets/Scripts/Hero/HeroModel.cs:65 | Those two properties pick out exactly one integer, so they fully specify the rounding. |
| `Hero.RoundHalfEvenMonotone` | TPK/Assets/Scripts/Hero/HeroModel.cs:65 | Rounding never reverses the order of two quotients with the same denominator. |
| `Hero.FinalDamage` | TPK/Assets/Scripts/Hero/HeroModel.cs:59-65 | The damage lies in [0, IntMax]. It is positive iff the exact value `amount*(50-def)/50` is above one half. Inside the clamp it is the nearest integer to the exact value, and it equals the exact value when that is a whole number. |
| `Hero.DefenseReducesDamage` | TPK/Assets/Scripts/Hero/HeroModel.cs:60-64 | For a non-negative amount, more defense never gives more damage. |
| `Hero.DefenseCases` | TPK/Assets/Scripts/Hero/HeroModel.cs:60-66 | Defense 50 gives zero damage for any amount. Defense >= 50 with amount >= 0 gives zero. Defense 0 with 0 <= amount <= IntMax gives exactly `amount`. A negative amount with defense > 50 has a positive exact value. It does damage iff `(-amount)*(def-50) > 25`. |
| `Hero.TakeDamage` | TPK/Assets/Scripts/Hero/HeroModel.cs:54-67 | A knocked-out hero is unchanged. Only `currentHealth` can change. With maxHealth >= 0, health ends in [0, maxHealth]. Health that starts in range never rises. With d the final damage and maxHealth >= 0, the result is exactly `old - d` clamped to [0, maxHealth]. That holds also when health starts above maxHealth, which `SetMaxHealth` allows: it ends at maxHealth if `old - d` is above it. |
| `Hero.ExactTiesRoundToZero` | TPK/Assets/Scripts/Hero/HeroModel.cs:59-65 | At amount 5 with defense 45, and amount -5 with defense 55, the exact damage is a tie at one half and the model's damage is 0. This is where the exact model and the float code part (see Left out). |
| `Hero.DefenseNeverHurts` | TPK/Assets/Scripts/Hero/HeroModel.cs:60-66 | With health in range and amount >= 0, a hero with more defense ends at least as healthy. |
| `Hero.Heal` | TPK/Assets/Scripts/Hero/HeroModel.cs:93-97 | Only `currentHealth` changes. With maxHealth >= 0 it ends in range. A non-negative heal never lowers in-range health. When `old + amount` is in range, the result is exactly `old + amount`. An overheal gives exactly `maxHealth` (when maxHealth >= 0). A total below zero gives 0. |
| `Hero.WithModel` | TPK/Assets/Scripts/Hero/HeroModel.cs:489-495 | The field updates of `LocalSetModel`: `heroIndex` and `heroType` take the given values, and nothing else changes. |
| `Hero.Apply` | TPK/Assets/Scripts/Hero/HeroModel.cs:53-67 | The server body of every `[Command]` (lines 53-67, 92-97, 161-381, 463-468), with `CmdSetModel` in its corrected form (see Findings; as written: `Hero.CmdSetModelAsWritten`). Each setter command establishes the value it assigns. No command changes the score. Only `CmdSetModel` changes the model index. |
| `Hero.CmdSetModelAsWritten` | TPK/Assets/Scripts/Hero/HeroModel.cs:464-468 | `CmdSetModel` as written. The server switches model index, but its hero type stays its own, whatever type it was sent, and nothing else changes. The forwarded `RpcSetModel` carries that same old type. |
| `Hero.RpcSetModelAsWritten` | TPK/Assets/Scripts/Hero/HeroModel.cs:476-481 | `RpcSetModel` as written. The local player is unchanged. Any other copy switches model index but keeps its own hero type, whatever type the message carries. |
| `Hero.CmdSetModelAsWrittenLosesType` | TPK/Assets/Scripts/Hero/HeroModel.cs:464-481 | Witness for the finding below. An owner of type 0 switches to type 2. The as-written `CmdSetModel` leaves the server at type 0 and forwards type 0. The as-written `RpcSetModel` leaves another client's copy at type 0 too. The corrected `Apply` matches the owner's state. |
| `Hero.SetModelReplicates` | TPK/Assets/Scripts/Hero/HeroModel.cs:431-468 | The corrected `CmdSetModel` brings the server to the owner's stats after `SetModel`, including the new hero type. |
| `Hero.SetterIdempotent` | TPK/Assets/Scripts/Hero/HeroModel.cs:161-381 | Each setter command establishes the value it assigns. Running it on stats that already hold the value changes nothing (both directions). Running it twice equals running it once. |
| `Hero.HealTwiceHealsTwice` | TPK/Assets/Scripts/Hero/HeroModel.cs:92-97 | `CmdHeal` is not idempotent. Two deliveries of a 10-point heal differ from one. |
| `Hero.BaseSettersClearBuff` | TPK/Assets/Scripts/Hero/HeroModel.cs:194-207 | After the server runs `CmdSetBaseAttack`, `CmdSetBaseDefense` or `CmdSetBaseSpeed`, the matching buff test is false. |
| `Hero.Stats.IsAttackBuffed` | TPK/Assets/Scripts/Hero/HeroModel.cs:102-110 | Buffed iff current is strictly above base, so buffed implies current != base. An attack below base is not buffed. |
| `Hero.Stats.IsDefBuffed` | TPK/Assets/Scripts/Hero/HeroModel.cs:115-123 | Buffed iff current is strictly above base, so buffed implies current != base. A defense below base is not buffed. |
| `Hero.Stats.IsSpeedBuffed` | TPK/Assets/Scripts/Hero/HeroModel.cs:128-136 | Buffed iff current is strictly above base, so buffed implies current != base. A speed below base is not buffed. |
| `Hero.HeroModel.IsAttackBuffed` | TPK/Assets/Scripts/Hero/HeroModel.cs:102-110 | On the hero's own fields: buffed iff `currentAttack > baseAttack`, so buffed implies `currentAttack != baseAttack`, and an attack below base is not buffed. |
| `Hero.HeroModel.IsDefBuffed` | TPK/Assets/Scripts/Hero/HeroModel.cs:115-123 | On the hero's own fields: buffed iff `currentDefense > baseDefense`, so buffed implies `currentDefense != baseDefense`, and a defense below base is not buffed. |
| `Hero.HeroModel.IsSpeedBuffed` | TPK/Assets/Scripts/Hero/HeroModel.cs:128-136 | On the hero's own fields: buffed iff `currentMoveSpeed > baseMoveSpeed`, so buffed implies `currentMoveSpeed != baseMoveSpeed`, and a speed below base is not buffed. |
| `Hero.HeroModel.constructor` | TPK/Assets/Scripts/Hero/HeroModel.cs:11-29 | Every synchronised field starts at its C# default, and the outbox starts empty. |
| `Hero.HeroModel.Start` | TPK/Assets/Scripts/Hero/HeroModel.cs:35-45 | Without authority, nothing changes. With authority: score 0, not knocked out, model index 0, movement speed 0, and the local player's id. A client also sends `CmdSetPlayerId`. |
| `Hero.HeroModel.CmdTakeDamage` | TPK/Assets/Scripts/Hero/HeroModel.cs:53-67 | The stats become `TakeDamage(old, amount)`. Nothing is sent. |
| `Hero.HeroModel.Heal` | TPK/Assets/Scripts/Hero/HeroModel.cs:74-85 | Authority-guarded. With authority, health becomes `Heal(old, amount)`, and a client sends exactly one `CmdHeal(amount)`. |
| `Hero.HeroModel.CmdHeal` | TPK/Assets/Scripts/Hero/HeroModel.cs:92-97 | The stats become `Heal(old, amount)`, whatever the role. |
| `Hero.HeroModel.SetPlayerId` | TPK/Assets/Scripts/Hero/HeroModel.cs:150-160 | Authority-guarded. Sets `playerId`. A client sends exactly `CmdSetPlayerId(id)`, and the server sends nothing. |
| `Hero.HeroModel.CmdSetPlayerId` | TPK/Assets/Scripts/Hero/HeroModel.cs:161-165 | Server execution: sets `playerId` only. |
| `Hero.HeroModel.SetHeroType` | TPK/Assets/Scripts/Hero/HeroModel.cs:170-180 | Authority-guarded. Sets `heroType` and sends `CmdSetHeroType` from a client. |
| `Hero.HeroModel.CmdSetHeroType` | TPK/Assets/Scripts/Hero/HeroModel.cs:181-185 | Server execution: sets `heroType` only. |
| `Hero.HeroModel.SetBaseMoveSpeed` | TPK/Assets/Scripts/Hero/HeroModel.cs:190-202 | Authority-guarded. Sets base and current speed to `val`, and the movement speed too. Afterwards speed is not buffed. A client sends `CmdSetBaseSpeed(val)`. |
| `Hero.HeroModel.CmdSetBaseSpeed` | TPK/Assets/Scripts/Hero/HeroModel.cs:203-208 | Server execution: sets base and current speed. |
| `Hero.HeroModel.SetCurrentMoveSpeed` | TPK/Assets/Scripts/Hero/HeroModel.cs:213-226 | The exception to the guard: always sets `currentMoveSpeed`. Without authority it sends `RpcSetcurr(val)`. With authority it sets the movement speed, and a client sends the command. |
| `Hero.HeroModel.RpcSetcurr` | TPK/Assets/Scripts/Hero/HeroModel.cs:227-231 | On receipt, only the owner applies the speed to its movement component. The stats are unchanged. |
| `Hero.HeroModel.CmdSetCurrentMoveSpeed` | TPK/Assets/Scripts/Hero/HeroModel.cs:233-237 | Server execution: sets `currentMoveSpeed`. |
| `Hero.HeroModel.SetBaseDefense` | TPK/Assets/Scripts/Hero/HeroModel.cs:242-253 | Authority-guarded. Sets base and current defense. Afterwards defense is not buffed. A client sends the command. |
| `Hero.HeroModel.CmdSetBaseDefense` | TPK/Assets/Scripts/Hero/HeroModel.cs:254-259 | Server execution: sets base and current defense. |
| `Hero.HeroModel.SetCurrentDefense` | TPK/Assets/Scripts/Hero/HeroModel.cs:264-274 | Authority-guarded. Sets `currentDefense`, and a client sends the command. |
| `Hero.HeroModel.CmdSetCurrentDefense` | TPK/Assets/Scripts/Hero/HeroModel.cs:275-279 | Server execution: sets `currentDefense`. |
| `Hero.HeroModel.SetBaseAttack` | TPK/Assets/Scripts/Hero/HeroModel.cs:284-295 | Authority-guarded. Sets base and current attack. Afterwards attack is not buffed. A client sends the command. |
| `Hero.HeroModel.CmdSetBaseAttack` | TPK/Assets/Scripts/Hero/HeroModel.cs:296-301 | Server execution: sets base and current attack. |
| `Hero.HeroModel.SetCurrentAttack` | TPK/Assets/Scripts/Hero/HeroModel.cs:306-316 | Authority-guarded. Sets `currentAttack`, and a client sends the command. |
| `Hero.HeroModel.CmdSetCurrentAttack` | TPK/Assets/Scripts/Hero/HeroModel.cs:317-321 | Server execution: sets `currentAttack`. |
| `Hero.HeroModel.SetMaxHealth` | TPK/Assets/Scripts/Hero/HeroModel.cs:326-336 | Authority-guarded. Sets `maxHealth` without re-clamping the current health. A client sends the command. |
| `Hero.HeroModel.CmdSetMaxHealth` | TPK/Assets/Scripts/Hero/HeroModel.cs:337-341 | Server execution: sets `maxHealth`. |
| `Hero.HeroModel.SetFullHealth` | TPK/Assets/Scripts/Hero/HeroModel.cs:346-356 | Authority-guarded. Afterwards `currentHealth == maxHealth`. A client sends `CmdSetFullHealth`. |
| `Hero.HeroModel.CmdSetFullHealth` | TPK/Assets/Scripts/Hero/HeroModel.cs:357-361 | Server execution: sets health to the maximum. |
| `Hero.HeroModel.SetKnockedOut` | TPK/Assets/Scripts/Hero/HeroModel.cs:366-376 | Authority-guarded. Sets `isKnockedOut`, and a client sends the command. |
| `Hero.HeroModel.CmdSetKnockedOut` | TPK/Assets/Scripts/Hero/HeroModel.cs:377-381 | Server execution: sets `isKnockedOut`. |
| `Hero.HeroModel.IncreaseScore` | TPK/Assets/Scripts/Hero/HeroModel.cs:387-392 | Not guarded. Score rises by exactly `amount`, nothing else changes, and nothing is sent. |
| `Hero.HeroModel.SetModel` | TPK/Assets/Scripts/Hero/HeroModel.cs:431-455 | Authority-guarded. The stats become `WithModel(old, childIndex, type)`. The server sends `RpcSetModel` and a client sends `CmdSetModel`, each carrying the old model index. |
| `Hero.HeroModel.CmdSetModel` | TPK/Assets/Scripts/Hero/HeroModel.cs:463-468 | Corrected (see Findings; as written: `Hero.CmdSetModelAsWritten`). The stats become `Apply(old, CmdSetModel(..))`, which takes the type sent. `RpcSetModel` is forwarded with that type. |
| `Hero.HeroModel.RpcSetModel` | TPK/Assets/Scripts/Hero/HeroModel.cs:476-481 | Corrected (see Findings; as written: `Hero.RpcSetModelAsWritten`). The local player ignores it. Every other copy applies `WithModel` with the type the message carries. |
| `Hero.HeroModel.LocalSetModel` | TPK/Assets/Scripts/Hero/HeroModel.cs:489-495 | The stats become `WithModel(old, childIndex, type)`. |
| `Hero.NoDefenseScenario` | TPK/Assets/Scripts/Hero/HeroModel.cs:54-67 | 100 health with defense 0 drops to 60 after a 40-point hit. |
| `Hero.FullDefenseScenario` | TPK/Assets/Scripts/Hero/HeroModel.cs:54-67 | With defense 50, a 100-point hit leaves the health at 100. |
| `Common.SqDistance` | TPK/Assets/Scripts/Player-General/ArtifactController.cs:89 | The squared distance is non-negative and is zero from a point to itself. It replaces `Vector3.Distance`, compared against the squared radius. |
| `HeroManagement.HeroManager.Start` | TPK/Assets/Scripts/GameManagement/HeroManager.cs:14-22 | The spawn list becomes player 1's (-55, 0.65, 20) followed by player 2's (-55, 0.65, 100). |
| `HeroManagement.HeroManager.GetSpawnLocationOfPlayer` | TPK/Assets/Scripts/GameManagement/HeroManager.cs:29-36 | Player 1 gets the first entry and player 2 the second. Player 0 gets entry `roll`, where `0 <= roll < 2`, so it gets the first entry iff `roll == 0`. Any other id is excluded by the precondition, because it indexes outside the list. |
| `HeroManagement.HeroManager.GetHeroObject` | TPK/Assets/Scripts/GameManagement/HeroManager.cs:43-60 | Returns null iff no hero has the id. Otherwise returns the first hero, in scan order, whose player id equals `id`. |
| `HeroManagement.HeroManager.GetAllPlayerTransforms` | TPK/Assets/Scripts/GameManagement/HeroManager.cs:65-76 | Returns a new array of length `numPlayers` whose element i is the i-th found object. Requires at least `numPlayers` found objects. |
| `HeroManagement.HeroManager.GetPlayerColour` | TPK/Assets/Scripts/GameManagement/HeroManager.cs:81-108 | The table: 0 white, 1 blue, 2 red, 3 green, 4 magenta, pinned by the independent inverse `PlayerOfColour`, which recovers each of ids 0 to 4 from its colour. Every other id gets black, which no player owns (both directions). Alpha is always 1. |
| `HeroManagement.HeroManager.PlayerColoursDistinct` | TPK/Assets/Scripts/GameManagement/HeroManager.cs:85-105 | The five coloured ids (white, blue, red, green, magenta) have pairwise distinct colours. |
| `Prephase.PrephaseManager.constructor` | TPK/Assets/Scripts/Game-Management/Prephase/PrephaseManager.cs:24-25 | The fields start at their C# defaults: `WaitingForPlayers` and countdown 0. |
| `Prephase.PrephaseManager.Start` | TPK/Assets/Scripts/Game-Management/Prephase/PrephaseManager.cs:30-38 | On the server: `NotActive` with countdown -1. On a client: no change. |
| `Prephase.PrephaseManager.IsCurrentlyInPrephase` | TPK/Assets/Scripts/Game-Management/Prephase/PrephaseManager.cs:60-69 | True iff the state is `WaitingForPlayers` or `RoomFull`, that is, iff it is not `NotActive`. |
| `Prephase.PrephaseManager.UpdatePrephase` | TPK/Assets/Scripts/Game-Management/Prephase/PrephaseManager.cs:74-87 | On the server with `numPlayers >= maxPlayers`, the state becomes `RoomFull` and the countdown starts. If the countdown is not positive, the pre-phase ends at once. In every other case, nothing changes. |
| `Prephase.PrephaseManager.StartCountdown` | TPK/Assets/Scripts/Game-Management/Prephase/PrephaseManager.cs:126-150 | A positive countdown suspends the coroutine in its wait. Otherwise the loop is skipped, with no decrement, and the pre-phase ends. |
| `Prephase.PrephaseManager.StartPrephaseWaitingRoom` | TPK/Assets/Scripts/Game-Management/Prephase/PrephaseManager.cs:92-101 | For every role: `WaitingForPlayers`, countdown 300. |
| `Prephase.PrephaseManager.EndPrephase` | TPK/Assets/Scripts/Game-Management/Prephase/PrephaseManager.cs:114-121 | On the server: `NotActive`, countdown -1. On a client: no change. |
| `Prephase.PrephaseManager.Tick` | TPK/Assets/Scripts/Game-Management/Prephase/PrephaseManager.cs:130-150 | A suspended countdown decreases by exactly 1. It stays suspended while still positive. Otherwise the pre-phase ends (`NotActive`, -1). Without a coroutine, nothing changes. |
| `Prephase.PrephaseManager.RunCountdown` | TPK/Assets/Scripts/Game-Management/Prephase/PrephaseManager.cs:126-151 | The loop terminates. From a positive countdown n it takes exactly n ticks, and from a non-positive one it takes one. It ends in `NotActive` with countdown -1. |
| `Prephase.LobbyScenario` | TPK/Assets/Scripts/Game-Management/Prephase/PrephaseManager.cs:74-150 | Server, two players. One player leaves it `WaitingForPlayers`. Two make it `RoomFull` at 300. Exactly 300 ticks later it is `NotActive` with countdown -1. |
| `Prephase.FullBeforeWaitingScenario` | TPK/Assets/Scripts/Game-Management/Prephase/PrephaseManager.cs:74-87 | A full room while the countdown is -1 ends the pre-phase immediately, with no coroutine left. |
| `Artifact.GetScore` | TPK/Assets/Scripts/Player-General/ArtifactController.cs:145-161 | Common is worth 100, Epic 250, Legendary 500 and Rare 1000. Every score is at least 100, and `RarityOfScore` recovers the rarity from its score. |
| `Artifact.ArtifactController.constructor` | TPK/Assets/Scripts/Player-General/ArtifactController.cs:8-12 | Every field at its C# default: not carried, no carrier, owner id 0, spawn at the origin, rarity Common, not destroyed, no events. |
| `Artifact.ArtifactController.Start` | TPK/Assets/Scripts/Player-General/ArtifactController.cs:31-36 | `ownerID = -1` and `rarity = Common`, leaving `isCarried` as it was. This establishes the invariant on a fresh artifact. |
| `Artifact.ArtifactController.Update` | TPK/Assets/Scripts/Player-General/ArtifactController.cs:39-51 | A free artifact is untouched. A carried one follows its carrier 3.5 above. It is dropped exactly when its carrier is knocked out. The invariant is kept. |
| `Artifact.ArtifactController.OnTriggerEnter` | TPK/Assets/Scripts/Player-General/ArtifactController.cs:59-109 | Pickup happens iff the artifact is free and the hero is not knocked out. It sets owner, owner id, spawn from the lookup and `isCarried`. Scoring happens iff the artifact is carried and within 10 of the owner's spawn. The carrier's score then rises by exactly `GetScore(rarity)`, and the artifact is destroyed. Any other touch, including another hero touching a carried artifact, changes nothing. The model requires a picking-up hero's id to be 0, 1 or 2. For any other id the source throws in the spawn lookup (line 74), after lines 70 and 73 have set the carrier and owner id. That leaves a free artifact whose owner id is not -1, which the model does not capture. |
| `Artifact.ArtifactController.DroppedArtifact` | TPK/Assets/Scripts/Player-General/ArtifactController.cs:114-132 | The carrier is cleared, `ownerID == -1`, `isCarried == false`, and the artifact rests 1 above the carrier. |
| `Artifact.ArtifactController.GetOwnerID` | TPK/Assets/Scripts/Player-General/ArtifactController.cs:137-140 | Returns the owner id, with no precondition, so it also works before `Start`. Once the invariant holds, it is -1 whenever the artifact is free. |
| `Artifact.KnockedOutScenario` | TPK/Assets/Scripts/Player-General/ArtifactController.cs:63-83 | A knocked-out hero's touch leaves the artifact free with owner -1. |
| `Artifact.ScoringScenario` | TPK/Assets/Scripts/Player-General/ArtifactController.cs:59-109 | Player 1 picks up a Common artifact, reaches their own spawn and scores exactly 100, and the artifact is destroyed. |

## Findings

| source | as written | input that shows it | evidently intended | confidence | as-written member | corrected member |
|---|---|---|---|---|---|---|
| TPK/Assets/Scripts/Hero/HeroModel.cs:466 | `CmdSetModel` passes the field `heroType` to `LocalSetModel`, not its parameter `type`, so the server keeps its old hero type. `RpcSetModel` (line 480) does the same, so other clients keep the old type as well. | The owner (hero type 0) calls `SetModel` choosing child 2 and type 2 on a client. The owner now has type 2, but the server copy keeps type 0. | Pass `type`, the hero type the owner chose. | not executed; the code path is plain | `Hero.CmdSetModelAsWrittenLosesType` | `Hero.SetModelReplicates` |

## Left out

- Float arithmetic. Damage is computed over exact rationals. In floats, `1 - defense/50` is inexact, so float results can differ at `.5` ties. For example, amount 75 with defense 49 is exactly 1.5, which the model rounds to 2. The float product may round to 1. Two proved clauses are decided at an exact tie, and the float code can disagree there. The first is `Hero.FinalDamage`'s "positive iff the exact value is above one half". The second is `Hero.DefenseCases`'s "a negative amount with defense > 50 does damage iff `(-amount)*(def-50) > 25`". For amount 5 with defense 45, and for amount -5 with defense 55, the exact value is 0.5 and the model gives 0 damage (`Hero.ExactTiesRoundToZero`). The single-precision product is 0.50000012, which `Mathf.Round` sends to 1.
- C# `int` overflow and wrap-around in health, score and heal arithmetic. The float `int.MaxValue` also rounds up to 2^31 before the cast. The model uses unbounded integers with the damage clamp at 2147483647.
- Network replication. SyncVar propagation and the delivery, ordering and duplication of commands and RPCs are engine transport. The model records sent messages in `outbox` and models each `[Command]` as a method the server runs.
- Roles. `hasAuthority`, `isServer` and `isLocalPlayer` are fixed per copy, set at construction.
- The enumeration `HeroType` is declared outside the modelled files, so it is modelled by its ordinal. `CharacterMovement` is not part of this model either. Its speed is the field `movementSpeed`. The model reads the argument of `new CharacterMovement(0)` in `Start` as the initial speed 0. After that, the field records the last value passed to `SetSpeed`. The null `characterMovement` before `Start` is not modelled.
- Plain getters. `GetHeroType`, `GetBaseMoveSpeed`, `GetBaseDefense`, `GetBaseAttack`, `GetCurrentMoveSpeed`, `GetCurrentDefense`, `GetCurrentAttack`, `GetPlayerId`, `GetCurrentHealth`, `GetMaxHealth`, `IsKnockedOut`, `GetScore`, `GetHeroIndex` and `GetCharacterMovement` of the hero, and `GetState` and `GetCountdown` of the lobby, are field reads. The model exposes the fields directly.
- `drunk`, `CmdDrunk` and `RpcDrunk`: a camera effect found by a scene query. `SetBasicAttack` has an empty body. `RpcIncreaseScore` is never called in the modelled code.
- Scene side effects are left out: child activation in `LocalSetModel`, the hero object lookup in `SetModel`, the artifact's scale, and the carrier slow-down (`HeroController.ArtifactPickup` / `ArtifactDrop`). Announcements and `SpawnArtifactRandom` become entries in the artifact's `events` log. `Destroy` sets the `destroyed` flag, and the engine makes no further calls to a destroyed artifact, so those methods require it not to be destroyed.
- `Common.SqDistance`: positions are exact reals. `Vector3.Distance(a, b) <= 10` is modelled as squared distance `<= 100`, which is equivalent over the reals. The square root itself is not modelled.
- `Random.Range(0, 2)` is a parameter `roll` with `0 <= roll < 2`. `matchManager.GetNumOfPlayers()`, `maxPlayers`, the local player id and the carrier's position are parameters too.
- Lobby timing and UI. `WaitForFixedUpdate` and `WaitForSeconds(1)` become the caller's pacing of `Tick`. `PrephaseUI.UpdateTimeLeftUI` and hiding the pre-phase screen are presentation. If `UpdatePrephase` starts a second coroutine while one is running, the model folds the two into the one running countdown. Overlapping coroutines are not modelled.
- `Artifact.ArtifactController.OnTriggerEnter`: a pickup requires the hero's id to be 0, 1 or 2. For any other id the source sets the carrier and owner id, then throws in the spawn lookup, and the artifact stays not carried with an owner id other than -1. The model does not capture that half-done state.
- `GetPlayerColourHexCode` is left out: it converts a colour with `ColorUtility`, an engine function.
- `GetScore`'s default branch (score 0) cannot be reached with the four-valued rarity type, so the model has no such case.
