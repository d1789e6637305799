# Cyclope Fight gameplay rules in Dafny

A model of the gameplay core of Cyclope Fight, a two-player Unreal Engine
arena shooter. Engine objects are replaced by small datatypes, and engine
look-ups (the world's game state and game mode, the line trace, random
numbers, spawn success) become parameters. The core has four parts:

- **Health and damage.** A character starts at `MaxHealth = 3`. Each hit from
  a causer of the character's own class costs exactly one point, whatever the
  damage amount. At zero or below, the instigator's controller is credited
  with a kill and the character is destroyed.
- **Hit routing and confirmation.** A locally controlled client pawn decides
  which message to send the server (`NotifyHit`, `NotifyMiss` or none). It
  always confirms the hit locally too. Confirmation damages the hit actor
  when `ShouldDealDamage` allows it. It records `HitNotify` only with
  authority, and draws a trail to the impact or to `LaserRange`. The server
  accepts a reported hit when the shooter has an instigator and the impact has
  an actor or blocks.
- **Identity and spawn starts.** `Login` hands out `FreeID` and increments it.
  The level's player starts are cached once. Id 0 maps to the last start
  tagged `Player1`, id 1 to the last tagged `Player2`, any other id to none.
  `Respawn` spawns at start 0 or 1 by a coin flip.
- **Score and respawn gating.** `AddScore` bumps one counter, only with
  authority. A kill credits player 1 exactly when the killer's id is 0.
  `TryToRespawn` sends a request only from a controller without authority and
  without a pawn.

Modules:

- `Net` (net.dfy): roles, net modes and their enumerator values, `Option`,
  and vectors.
- `Combat` (combat.dfy): the character's rules as values. It holds the damage
  step and runs of hits, `ShouldDealDamage`, the routing table, the server's
  acceptance of a reported hit, trails, and what one shot amounts to across
  client and authority.
- `Scoring` (game_state.dfy): the `GameState` class and the score
  specification.
- `Player` (player.dfy): the `Character` and `PlayerController` classes.
  They refer to each other, so they share a module.
- `Game` (game_mode.dfy): the `GameMode` class and the start-selection
  specification. It also holds `RequestGMRespawn`, which calls into the game
  mode.
- `Scenario` (scenario.dfy): whole runs through the objects.

Points about the code that the model makes explicit:

- `ProcessHit` compares the pawn's remote role with the net mode `NM_Client`.
  Both enums are compared by value, and `NM_Client` has the value of
  `ROLE_Authority`. The model does that comparison literally.
  `Net.RoleEqualsClientModeIffAuthority` shows it means "remote role is
  Authority", which is what a client's own pawn has.
- `Combat.Route` follows the branches of `ProcessHit`
  (CyclopeFightCharacter.cpp:270-284). It takes the hit actor's remote role
  as an input, as the engine reports it on the shooting machine.
- Every use of the hit actor goes through the impact's `GetActor()`. That is a
  weak reference, so a character that is already destroyed reads as no actor
  (`Player.HitActor`). A shot at it is routed, checked by the server and
  confirmed as a shot that hit no actor. It is not damaged again and credits
  no second kill (`Scenario.ThreeHitKill` shoots a fourth time).
- `TakeDamage` itself has no guard against a character already destroyed.
  Called directly, every further same-class hit at zero or below credits
  another kill, and `Combat.RunHitsEffect` states the exact count. No caller
  in the core reaches that case, because of the weak reference above.
- Player-start tags are engine names, and engine names compare without
  regard to case. The model compares them after folding ASCII letters to
  lower case (`Game.SameName`).

## Model

| member | source | states |
|---|---|---|
| `Net.RoleEqualsClientModeIffAuthority` | Source/CyclopeFight/Private/Player/CyclopeFightCharacter.cpp:267 | comparing a remote role with the net mode Client by enumerator value holds exactly for the role Authority |
| `Combat.RunHitsEffect` | Source/CyclopeFight/Private/Player/CyclopeFightCharacter.cpp:167-188 | over any series of TakeDamage calls, health drops by the number of same-class hits, each such hit ending at or below zero credits one kill, and the character is destroyed once a kill was credited |
| `Combat.HitsFromBegun` | Source/CyclopeFight/Private/Player/CyclopeFightCharacter.cpp:167-188 | from BeginPlay, k < 3 eligible hits leave the character alive at 3 - k with no kill; the third eligible hit leaves health 0, destroys it and credits exactly one kill |
| `Combat.HealthNeverRises` | Source/CyclopeFight/Private/Player/CyclopeFightCharacter.cpp:170-174 | damage never raises health |
| `Combat.IneligibleHitsChangeNothing` | Source/CyclopeFight/Private/Player/CyclopeFightCharacter.cpp:170 | hits whose causer has another class change neither health nor destruction and credit no kill |
| `Combat.ShouldDealDamageTable` | Source/CyclopeFight/Private/Player/CyclopeFightCharacter.cpp:210-224 | no actor is never damaged; off a client every actor is; on a client exactly the actors that are authoritative there or torn off |
| `Combat.RouteTable` | Source/CyclopeFight/Private/Player/CyclopeFightCharacter.cpp:265-288 | only a locally controlled pawn whose remote role is Authority sends anything; then an actor authoritative elsewhere or a block without actor gives NotifyHit, no actor and no block gives NotifyMiss, any other actor gives no message (each case exactly one answer) |
| `Combat.ServerNotifyHitGuard` | Source/CyclopeFight/Private/Player/CyclopeFightCharacter.cpp:321-344 | the server confirms a reported hit exactly when the shooter has an instigator and the impact has an actor or blocks |
| `Combat.TrailWithinRange` | Source/CyclopeFight/Private/Player/CyclopeFightCharacter.cpp:305-317 | a trail is drawn unless on a dedicated server, starts at the origin, and for a trace within range never exceeds LaserRange |
| `Combat.ClientShotDamagesOnceOnAuthority` | Source/CyclopeFight/Private/Player/CyclopeFightCharacter.cpp:265-344 | a client's shot at an actor replicated from the authority is not damaged on the client and is damaged exactly once in total, by the authority |
| `Combat.HostShotDamagesOnceLocally` | Source/CyclopeFight/Private/Player/CyclopeFightCharacter.cpp:265-296 | a shot fired on a non-client machine by a pawn whose remote role is not Authority sends no message and damages the hit actor exactly once |
| `Combat.ShotWithoutActorDamagesNothing` | Source/CyclopeFight/Private/Player/CyclopeFightCharacter.cpp:290-296 | a shot that hits no actor damages nothing on any machine |
| `Scoring.ScoresCountCredits` | Source/CyclopeFight/Private/Game/CyclopeFightGameState.cpp:11-23 | over any series of AddScore calls each counter grows by exactly the number of authority calls crediting its player |
| `Scoring.CreditsSplitAuthorityCalls` | Source/CyclopeFight/Private/Game/CyclopeFightGameState.cpp:13-21 | every authority call credits exactly one of the two players |
| `Scoring.ScoresMonotoneAndCounted` | Source/CyclopeFight/Private/Game/CyclopeFightGameState.cpp:11-23 | both scores never decrease, and their sum grows by exactly the number of authority calls |
| `Scoring.NonAuthorityCallsChangeNothing` | Source/CyclopeFight/Private/Game/CyclopeFightGameState.cpp:13 | calls without authority leave both scores unchanged |
| `Scoring.GameState.constructor` | Source/CyclopeFight/Private/Game/CyclopeFightGameState.cpp:6-9 | both scores start at 0 |
| `Scoring.GameState.AddScore` | Source/CyclopeFight/Private/Game/CyclopeFightGameState.cpp:11-23 | with authority the flagged player's score rises by exactly 1 and the other is unchanged; without authority neither changes |
| `Scoring.GameState.OnRep_Score` | Source/CyclopeFight/Private/Game/CyclopeFightGameState.cpp:25-28 | the broadcast carries both current totals |
| `Player.Character.constructor` | Source/CyclopeFight/Private/Player/CyclopeFightCharacter.cpp:25-68 | a spawned character holds its class, net context and arrow location, health 0 before BeginPlay, not destroyed, no controller |
| `Player.Character.BeginPlay` | Source/CyclopeFight/Private/Player/CyclopeFightCharacter.cpp:70-75 | health becomes MaxHealth = 3 |
| `Player.Character.GetMaxHealth` | Source/CyclopeFight/Private/Player/CyclopeFightCharacter.cpp:397-400 | MaxHealth as a byte, 3 |
| `Player.Character.TakeDamage` | Source/CyclopeFight/Private/Player/CyclopeFightCharacter.cpp:167-188 | a same-class causer lowers health by exactly 1 whatever the amount, another class changes nothing; reaching <= 0 destroys and gives the instigator's side exactly one AddScore; always returns 1 |
| `Player.Character.DoDamage` | Source/CyclopeFight/Private/Player/CyclopeFightCharacter.cpp:202-208 | a hit character takes one TakeDamage with this pawn's controller as instigator and this pawn's class as causer; other actors touch no score |
| `Player.HitActor` | Source/CyclopeFight/Private/Player/CyclopeFightCharacter.cpp:270-274 | the impact's actor reads as none exactly when there is none or it is a character already destroyed; otherwise it is the traced actor |
| `Player.Character.ProcessHit_Confirmed` | Source/CyclopeFight/Private/Player/CyclopeFightCharacter.cpp:290-318 | damages the hit character exactly when ShouldDealDamage holds for the actor as GetActor() returned it before the call, so a destroyed character is never damaged again; sets HitNotify to (origin, direction) only with authority; returns the trail to the impact distance if blocking, else to LaserRange, none on a dedicated server |
| `Player.Character.ProcessHit` | Source/CyclopeFight/Private/Player/CyclopeFightCharacter.cpp:265-288 | the message sent is the routing table's for the actor as GetActor() returns it, so a destroyed character is routed as no actor; the confirmation runs in every case |
| `Player.Character.Server_NotifyHit` | Source/CyclopeFight/Private/Player/CyclopeFightCharacter.cpp:321-344 | a destroyed character counts as no actor in the guard; past the guard every branch confirms from the arrow's location; otherwise nothing changes |
| `Player.Character.Server_NotifyMiss` | Source/CyclopeFight/Private/Player/CyclopeFightCharacter.cpp:346-358 | HitNotify becomes (arrow location, direction) and a full-range trail is drawn unless on a dedicated server |
| `Player.Character.OnRep_Health` | Source/CyclopeFight/Private/Player/CyclopeFightCharacter.cpp:226-236 | a locally controlled pawn with a cyclope controller reports health / MaxHealth, within [0, 1] for health in [0, 3]; otherwise nothing |
| `Player.PlayerController.constructor` | Source/CyclopeFight/Private/Player/CyclopePlayerController.cpp:13-15 | a new controller has id 0, no pawn, and is not local |
| `Player.PlayerController.SetPlayerID` | Source/CyclopeFight/Private/Player/CyclopePlayerController.cpp:81-84 | the id becomes the value passed, nothing else changes |
| `Player.PlayerController.GetPlayerID` | Source/CyclopeFight/Private/Player/CyclopePlayerController.cpp:86-89 | returns the id last set |
| `Player.PlayerController.SetAsLocalPlayerController` | Source/CyclopeFight/Private/Game/CyclopeFightGameMode.cpp:58-61 | the controller is marked local |
| `Player.PlayerController.TryToRespawn` | Source/CyclopeFight/Private/Player/CyclopePlayerController.cpp:57-69 | a request is sent exactly when the controller lacks authority and has no pawn; with a pawn it is rejected locally; with authority nothing happens |
| `Player.PlayerController.GetMaxHealth` | Source/CyclopeFight/Private/Player/CyclopePlayerController.cpp:71-79 | 0 without a pawn, the pawn's MaxHealth (3) with one |
| `Player.PlayerController.KilledByEnemy` | Source/CyclopeFight/Private/Player/CyclopePlayerController.cpp:101-109 | with a game state, exactly one AddScore, crediting player 1 iff this id is 0; without one, no score changes |
| `Player.PlayerController.Possess` | Source/CyclopeFight/Private/Game/CyclopeFightGameMode.cpp:119-122 | controller and character point at each other |
| `Game.SameNameIgnoresCase` | Source/CyclopeFight/Private/Game/CyclopeFightGameMode.cpp:90-98 | tags equal letter by letter up to case are the same name; tags of different lengths never are |
| `Game.LastTagged` | Source/CyclopeFight/Private/Game/CyclopeFightGameMode.cpp:85-104 | a result exists iff some start's tag is the same name as the tag (case ignored), and it is the start at the last such index |
| `Game.ChooseStartTable` | Source/CyclopeFight/Private/Game/CyclopeFightGameMode.cpp:82-106 | ids outside {0, 1} get none; id 0 gets a start tagged Player1 and id 1 one tagged Player2, case ignored, exactly when one exists |
| `Game.LowerCaseTagIsChosen` | Source/CyclopeFight/Private/Game/CyclopeFightGameMode.cpp:88-100 | a start tagged "player1" goes to id 0 and one tagged "PLAYER2" to id 1 |
| `Game.UniquelyTaggedStartIsChosen` | Source/CyclopeFight/Private/Game/CyclopeFightGameMode.cpp:85-106 | when one start alone carries an id's tag (case ignored), that id gets exactly that start |
| `Game.ScanPlayerStarts` | Source/CyclopeFight/Private/Game/CyclopeFightGameMode.cpp:82-106 | the overwriting scan returns the last start whose tag is the id's tag up to case, none for other ids |
| `Game.CountingIdsAreDistinct` | Source/CyclopeFight/Private/Game/CyclopeFightGameMode.cpp:56-57 | ids handed out 0, 1, 2, ... are strictly increasing and no later id was already handed out |
| `Game.GameMode.constructor` | Source/CyclopeFight/Private/Game/CyclopeFightGameMode.cpp:13-36 | FreeID starts at 0, no starts collected and the flag is false |
| `Game.GameMode.Login` | Source/CyclopeFight/Private/Game/CyclopeFightGameMode.cpp:43-69 | a spawned controller gets the current FreeID, never handed out before, and FreeID rises by 1; a simulated-proxy login is made local; a failed spawn returns null and leaves FreeID unchanged |
| `Game.GameMode.ChoosePlayerStart` | Source/CyclopeFight/Private/Game/CyclopeFightGameMode.cpp:71-107 | the first call appends the level's starts and sets the flag, later calls leave both unchanged; the result is the last cached start tagged for the controller's id |
| `Game.ChoosePlayerStartIsStable` | Source/CyclopeFight/Private/Game/CyclopeFightGameMode.cpp:71-107 | two calls for the same controller return the same start |
| `Game.GameMode.Respawn` | Source/CyclopeFight/Private/Game/CyclopeFightGameMode.cpp:109-125 | for a player on authority, with start 0 or 1 existing, a successful spawn gives a fresh full-health character of the default pawn class at that start, possessed by the player; otherwise nothing changes |
| `Game.RequestGMRespawn` | Source/CyclopeFight/Private/Player/CyclopePlayerController.cpp:111-126 | forwards to Respawn exactly when the controller has authority and the game mode is a cyclope game mode; otherwise nothing changes |
| `Scenario.ThreeHitKill` | Source/CyclopeFight/Private/Player/CyclopeFightCharacter.cpp:167-188 | three eligible hits by player 1 on a listen server take the victim's health through 3, 2, 1, 0, destroy it and give player 1 exactly one point; a fourth shot finds no actor, so health stays 0 and no second kill is credited; no messages are sent |
| `Scenario.ClientShotConfirmedByAuthority` | Source/CyclopeFight/Private/Player/CyclopeFightCharacter.cpp:265-344 | a client's shot at the other player's proxy sends NotifyHit and leaves the proxy intact; the authority's copy loses exactly one point |

## Left out

- Ray casting (`EyeTrace`): its outcome is an input `HitResult`.
- Trail replay on observers (`OnRep_HitNotify`, `SimulateHit`) and the Niagara
  effect (`SpawnLaserTrail`): presentation only. A trail is a returned value
  `Trail(origin, direction, length)`. No vector arithmetic is done.
- Input, camera, movement and aim (`SetupPlayerInputComponent`, `MoveForward`,
  `MoveRight`, `TurnAtRate`, `LookUp`, `LookRight`): floating-point
  presentation.
- Replication and RPC delivery: messages are returned tags. A `NotifyHit`
  reaching the authority is a separate call to `Server_NotifyHit`. Reliable
  and unreliable transport, and property replication, are not modelled.
- `Multicast_HideMesh`, `UnPossessed`, the possession delegates, and
  `HealthChangedNotify` with the HUD: presentation only.
  `Character.OnRep_Health` returns the fraction it would forward.
- Randomness in `Respawn`: the coin flip is a parameter. `SpawnActor` success
  is a parameter too.
- Engine `Possess`: only the two links are modelled. Unpossessing a previous
  pawn is not.
- A spawned character's roles come from the engine: local role Authority,
  remote role SimulatedProxy for a local player and AutonomousProxy otherwise.
  The model fixes them at spawn. It does not follow later role changes or
  `TearOff`.
- Integer widths: `FreeID`, the player id and the scores are `int32` in the
  source. The model uses unbounded integers, since a two-player match never
  comes near overflow. Health is a `float` in the source but only ever holds
  whole values, so it is an `int`.
- `ChoosePlayerStart` with a controller that is not a cyclope controller:
  the source dereferences a null cast. The model takes a cyclope controller.
- Asset loading, component setup and the build rules.
- Game.SameName: only ASCII letters are folded. Folding of letters outside
  ASCII by the engine's name comparison is not modelled. The tags the game
  looks for, `Player1` and `Player2`, are ASCII.
