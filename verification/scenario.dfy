/** Whole-match runs through the objects: player 1 (id 0) shooting player 2
    on a listen server until the kill and once more, and a client's shot
    confirmed by the authority. */
module Scenario {
  import opened Net
  import opened Combat
  import opened Scoring
  import opened Player

  const PawnClass: ActorClass := ActorClass("CyclopeCharacter")

  /** Three eligible, authority-confirmed hits on a fresh character: its
      health runs 3, 2, 1, 0, it is destroyed, and player 1 scores once. A
      fourth shot finds the destroyed character gone: its health stays 0 and
      no second kill is credited. */
  method ThreeHitKill(origin: Vec, dir: Vec)
    returns (victim: Character, gs: GameState, healths: seq<int>, msgs: seq<ServerMsg>)
    ensures healths == [3, 2, 1, 0, 0]
    ensures msgs == [NoMsg, NoMsg, NoMsg, NoMsg]
    ensures victim.destroyed
    ensures gs.player1Score == 1 && gs.player2Score == 0
  {
    gs := new GameState(Authority);
    var killerPc := new PlayerController(Authority);
    killerPc.SetPlayerID(0);
    var killer := new Character(PawnClass, NetContext(ListenServer, Authority, SimulatedProxy, true),
                                false, Movable, true, origin);
    killer.BeginPlay();
    killerPc.Possess(killer);
    victim := new Character(PawnClass, NetContext(ListenServer, Authority, AutonomousProxy, false),
                            false, Movable, true, origin);
    victim.BeginPlay();
    healths := [victim.health];
    msgs := [];
    var impact := HitResult(Some(Pawn(victim)), true, 100.0);
    var shot := 0;
    while shot < 4
      invariant 0 <= shot <= 4
      invariant |healths| == shot + 1 && |msgs| == shot
      invariant forall k :: 0 <= k <= shot ==> healths[k] == if k < 3 then MAX_HEALTH - k else 0
      invariant forall k :: 0 <= k < shot ==> msgs[k] == NoMsg
      invariant victim.health == if shot < 3 then MAX_HEALTH - shot else 0
      invariant victim.destroyed == (shot >= 3)
      invariant gs.player1Score == (if shot >= 3 then 1 else 0) && gs.player2Score == 0
      invariant killer.controller == killerPc && killerPc.uniquePlayerId == 0
      invariant gs.localRole == Authority && killer != victim
      invariant killer.net == NetContext(ListenServer, Authority, SimulatedProxy, true) && killer.cls == victim.cls
      modifies killer`hitNotify, victim`health, victim`destroyed, gs
    {
      RoleEqualsClientModeIffAuthority(SimulatedProxy);
      var msg, trail := killer.ProcessHit(impact, origin, dir, gs);
      healths := healths + [victim.health];
      msgs := msgs + [msg];
      shot := shot + 1;
    }
  }

  /** A client shooting the other player's proxy sends NotifyHit and deals no
      damage itself; the authority, receiving it, takes the point off its own
      copy of that player. */
  method ClientShotConfirmedByAuthority(origin: Vec, dir: Vec)
    returns (proxy: Character, authoritative: Character, msg: ServerMsg)
    ensures msg == NotifyHit
    ensures proxy.health == MAX_HEALTH && authoritative.health == MAX_HEALTH - 1
    ensures !authoritative.destroyed
  {
    // The shooter as its own client sees it, and as the authority sees it.
    var shooterOnClient := new Character(PawnClass, NetContext(Client, AutonomousProxy, Authority, true),
                                         false, Movable, true, origin);
    var shooterOnServer := new Character(PawnClass, NetContext(ListenServer, Authority, AutonomousProxy, false),
                                         false, Movable, true, origin);
    // The target, as a proxy on the shooter's client and as itself on the authority.
    proxy := new Character(PawnClass, NetContext(Client, SimulatedProxy, Authority, false),
                           false, Movable, true, origin);
    authoritative := new Character(PawnClass, NetContext(ListenServer, Authority, AutonomousProxy, false),
                                   false, Movable, true, origin);
    proxy.BeginPlay();
    authoritative.BeginPlay();
    RoleEqualsClientModeIffAuthority(Authority);
    var trail;
    // No one dies from one hit, so neither machine needs a game state here.
    msg, trail := shooterOnClient.ProcessHit(HitResult(Some(Pawn(proxy)), true, 250.0), origin, dir, null);
    assert msg == NotifyHit && proxy.health == MAX_HEALTH;
    trail := shooterOnServer.Server_NotifyHit(HitResult(Some(Pawn(authoritative)), true, 250.0), dir, null);
  }
}
