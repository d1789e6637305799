/** The fighting character and the player controller, as objects whose
    fields the gameplay code updates in place. They refer to each other (a
    controller possesses a pawn, a pawn credits its killer's controller), so
    they share a module. The world's game state is passed in where the source
    looks it up. */
module Player {
  import opened Net
  import opened Combat
  import opened Scoring

  /** The replicated record remote machines replay a shot's trail from. */
  datatype HitInfo = HitInfo(origin: Vec, shootDir: Vec)

  /** An actor a trace can report: a fighting character, or any other actor,
      described by what the rules look at. */
  datatype Target = Pawn(character: Character) | Prop(view: ActorView)

  function ViewOf(t: Target): ActorView
  {
    match t
    case Pawn(c) => c.View()
    case Prop(v) => v
  }

  /** The outcome of the engine's line trace, taken as input. */
  datatype HitResult = HitResult(actor: Option<Target>, blocking: bool, distance: real)

  /** The characters an impact names: the hit actor if it is one. */
  function Victims(impact: HitResult): set<Character>
  {
    match impact.actor
    case Some(Pawn(c)) => {c}
    case _ => {}
  }

  /** The hit actor as the impact's GetActor() returns it. That is a weak
      reference, so a character already destroyed reads as no actor. */
  function HitActor(impact: HitResult): (t: Option<Target>)
    reads Victims(impact)
    ensures t.None? <==> impact.actor.None? || (impact.actor.value.Pawn? && impact.actor.value.character.destroyed)
    ensures t.Some? ==> t == impact.actor
  {
    match impact.actor
    case Some(Pawn(c)) => if c.destroyed then None else impact.actor
    case other => other
  }

  /** What the rules see of the hit actor. */
  function ActorOf(impact: HitResult): Option<ActorView>
    reads Victims(impact)
  {
    match HitActor(impact)
    case None => None
    case Some(t) => Some(ViewOf(t))
  }

  /** What the character's TakeDamage did to c's vitals and to the score:
      exactly the Damage step, and on the death branch exactly one AddScore
      for the instigator's side, when there is a cyclope instigator and game
      state; otherwise the score is untouched. */
  twostate predicate TookDamage(c: Character, new instigator: PlayerController?, causer: ActorClass, gs: GameState?)
    reads c, instigator, gs
  {
    var step := Damage(old(c.CurrentVitals()), causer == c.cls);
    && c.CurrentVitals() == step.after
    && if step.killed && instigator != null && gs != null then
         gs.CurrentScore() ==
           AddScoreSpec(old(gs.CurrentScore()), gs.localRole == Authority, instigator.uniquePlayerId == 0)
       else
         gs == null || gs.CurrentScore() == old(gs.CurrentScore())
  }

  class Character {
    const cls: ActorClass
    const net: NetContext
    const tornOff: bool
    const mobility: Mobility
    /** Whether GetInstigator() is set. */
    const hasInstigator: bool
    /** World location of the shoot-direction arrow, the laser's pivot. */
    var muzzle: Vec
    var health: int
    var destroyed: bool
    var hitNotify: HitInfo
    var controller: PlayerController?

    function View(): ActorView
    {
      ActorView(cls, net.localRole, net.remoteRole, tornOff, mobility)
    }

    function CurrentVitals(): Vitals
      reads this
    {
      Vitals(health, destroyed)
    }

    /** A spawned character before BeginPlay: engine memory is zeroed, so
        health is 0 until BeginPlay sets it. */
    constructor (cls: ActorClass, net: NetContext, tornOff: bool, mobility: Mobility,
                 hasInstigator: bool, muzzle: Vec)
      ensures this.cls == cls && this.net == net && this.tornOff == tornOff
      ensures this.mobility == mobility && this.hasInstigator == hasInstigator
      ensures this.muzzle == muzzle && health == 0 && !destroyed
      ensures hitNotify == HitInfo(ZeroVec, ZeroVec) && controller == null
    {
      this.cls, this.net, this.tornOff := cls, net, tornOff;
      this.mobility, this.hasInstigator, this.muzzle := mobility, hasInstigator, muzzle;
      health, destroyed := 0, false;
      hitNotify := HitInfo(ZeroVec, ZeroVec);
      controller := null;
    }

    /** BeginPlay: health starts full. */
    method BeginPlay()
      modifies this`health
      ensures !destroyed ==> CurrentVitals() == Begun()
      ensures health == MAX_HEALTH
    {
      health := MAX_HEALTH;
    }

    /** The character's MaxHealth, converted to a byte. */
    function GetMaxHealth(): (m: int)
      ensures 0 <= m < 256 && m == MAX_HEALTH
    {
      MAX_HEALTH
    }

    /** TakeDamage: a causer of this character's own class costs exactly one
        point, whatever the amount; reaching zero or below credits the
        instigator's controller with a kill and destroys the character. Any
        other causer changes nothing. Always returns 1. */
    method TakeDamage(damageAmount: real, instigator: PlayerController?, causer: ActorClass, gs: GameState?)
      returns (r: real)
      modifies this`health, this`destroyed, gs
      ensures r == 1.0
      ensures TookDamage(this, instigator, causer, gs)
      ensures causer == cls ==> health == old(health) - 1
      ensures causer != cls ==> health == old(health) && destroyed == old(destroyed)
      ensures destroyed == (old(destroyed) || (causer == cls && old(health) <= 1))
    {
      if causer == cls {
        health := health - 1;
        if health <= 0 {
          if instigator != null {
            instigator.KilledByEnemy(gs);
          }
          destroyed := true;
        }
      }
      r := 1.0;
    }

    /** DoDamage: one point of damage to the hit actor, with this character's
        controller as instigator and this character as causer. Actors other
        than fighting characters keep the engine's default damage handling,
        which touches no gameplay state. */
    method DoDamage(target: Target, gs: GameState?)
      modifies (if target.Pawn? then {target.character} else {})`health,
               (if target.Pawn? then {target.character} else {})`destroyed, gs
      ensures target.Pawn? ==> TookDamage(target.character, controller, cls, gs)
      ensures target.Prop? ==> gs == null || gs.CurrentScore() == old(gs.CurrentScore())
    {
      if target.Pawn? {
        var _ := target.character.TakeDamage(1.0, controller, cls, gs);
      }
    }

    /** What ProcessHit_Confirmed does with an impact: damage the hit
        character when ShouldDealDamage allows it for the actor as it was
        before the call (a destroyed character is no actor, so it is never
        damaged again), and nothing otherwise; record the shot in HitNotify
        only with authority; and return the local trail. */
    twostate predicate Confirmed(impact: HitResult, origin: Vec, shootDir: Vec, gs: GameState?, new trail: Option<Trail>)
      reads this, Victims(impact), gs, controller
    {
      && hitNotify == (if net.localRole == Authority then HitInfo(origin, shootDir) else old(hitNotify))
      && trail == ConfirmedTrail(net.netMode, origin, shootDir, impact.blocking, impact.distance)
      && if impact.actor.Some? && impact.actor.value.Pawn? && ShouldDealDamage(net.netMode, old(ActorOf(impact))) then
           TookDamage(impact.actor.value.character, controller, cls, gs)
         else
           (forall c | c in Victims(impact) :: c.CurrentVitals() == old(c.CurrentVitals())) &&
           (gs == null || gs.CurrentScore() == old(gs.CurrentScore()))
    }

    method ProcessHit_Confirmed(impact: HitResult, origin: Vec, shootDir: Vec, gs: GameState?)
      returns (trail: Option<Trail>)
      modifies this`hitNotify, Victims(impact)`health, Victims(impact)`destroyed, gs
      ensures Confirmed(impact, origin, shootDir, gs, trail)
      ensures muzzle == old(muzzle) && controller == old(controller)
    {
      if ShouldDealDamage(net.netMode, ActorOf(impact)) {
        DoDamage(HitActor(impact).value, gs);
      }
      if net.localRole == Authority {
        hitNotify := HitInfo(origin, shootDir);
      }
      trail := ConfirmedTrail(net.netMode, origin, shootDir, impact.blocking, impact.distance);
    }

    /** ProcessHit: the message to the server chosen by the routing table,
        then the confirmation, which runs in every case. */
    method ProcessHit(impact: HitResult, origin: Vec, shootDir: Vec, gs: GameState?)
      returns (msg: ServerMsg, trail: Option<Trail>)
      modifies this`hitNotify, Victims(impact)`health, Victims(impact)`destroyed, gs
      ensures msg == Route(net.locallyControlled, net.remoteRole, old(ActorOf(impact)), impact.blocking)
      ensures Confirmed(impact, origin, shootDir, gs, trail)
    {
      msg := Route(net.locallyControlled, net.remoteRole, ActorOf(impact), impact.blocking);
      trail := ProcessHit_Confirmed(impact, origin, shootDir, gs);
    }

    /** Server_NotifyHit: rejected without an instigator, or without an
        actor and a block; otherwise confirmed from the arrow's location by
        the same call whatever the actor's mobility. A destroyed character
        counts as no actor in the guard as well as in the confirmation. */
    method Server_NotifyHit(impact: HitResult, shootDir: Vec, gs: GameState?)
      returns (trail: Option<Trail>)
      modifies this`hitNotify, Victims(impact)`health, Victims(impact)`destroyed, gs
      ensures old(ServerNotifyHitBranch(hasInstigator, ActorOf(impact), impact.blocking)) != Rejected ==>
        Confirmed(impact, old(muzzle), shootDir, gs, trail)
      ensures old(ServerNotifyHitBranch(hasInstigator, ActorOf(impact), impact.blocking)) == Rejected ==>
        trail == None && hitNotify == old(hitNotify) &&
        (forall c | c in Victims(impact) :: c.CurrentVitals() == old(c.CurrentVitals())) &&
        (gs == null || gs.CurrentScore() == old(gs.CurrentScore()))
    {
      trail := None;
      var actor := HitActor(impact);
      if hasInstigator && (actor.Some? || impact.blocking) {
        if actor.None? {
          if impact.blocking {
            trail := ProcessHit_Confirmed(impact, muzzle, shootDir, gs);
          }
        } else if ViewOf(actor.value).mobility == Static || ViewOf(actor.value).mobility == Stationary {
          trail := ProcessHit_Confirmed(impact, muzzle, shootDir, gs);
        } else {
          trail := ProcessHit_Confirmed(impact, muzzle, shootDir, gs);
        }
      }
    }

    /** Server_NotifyMiss: records the arrow's location and the direction for
        remote replay, whatever the role, and draws a full-range trail unless
        on a dedicated server. */
    method Server_NotifyMiss(shootDir: Vec) returns (trail: Option<Trail>)
      modifies this`hitNotify
      ensures hitNotify == HitInfo(muzzle, shootDir)
      ensures trail == ConfirmedTrail(net.netMode, muzzle, shootDir, false, 0.0)
      ensures net.netMode != DedicatedServer ==> trail == Some(Trail(muzzle, shootDir, LASER_RANGE))
    {
      hitNotify := HitInfo(muzzle, shootDir);
      if net.netMode != DedicatedServer {
        trail := Some(Trail(hitNotify.origin, shootDir, LASER_RANGE));
      } else {
        trail := None;
      }
    }

    /** OnRep_Health: a locally controlled character with a cyclope
        controller reports health as a fraction of MaxHealth to the HUD. */
    function OnRep_Health(): (fraction: Option<real>)
      reads this
      ensures fraction.Some? <==> net.locallyControlled && controller != null
      ensures fraction.Some? ==> fraction.value * (MAX_HEALTH as real) == health as real
      ensures fraction.Some? && 0 <= health <= MAX_HEALTH ==> 0.0 <= fraction.value <= 1.0
    {
      if net.locallyControlled && controller != null then
        Some(health as real / MAX_HEALTH as real)
      else
        None
    }
  }

  /** What TryToRespawn does. */
  datatype RespawnOutcome = RequestSent | AlreadyPossessing | Ignored

  class PlayerController {
    const localRole: NetRole
    var uniquePlayerId: int
    var isLocalPlayerController: bool
    var pawn: Character?

    constructor (localRole: NetRole)
      ensures this.localRole == localRole
      ensures uniquePlayerId == 0 && !isLocalPlayerController && pawn == null
    {
      this.localRole := localRole;
      uniquePlayerId, isLocalPlayerController, pawn := 0, false, null;
    }

    method SetPlayerID(id: int)
      modifies this`uniquePlayerId
      ensures uniquePlayerId == id
    {
      uniquePlayerId := id;
    }

    function GetPlayerID(): (id: int)
      reads this
      ensures id == uniquePlayerId
    {
      uniquePlayerId
    }

    method SetAsLocalPlayerController()
      modifies this`isLocalPlayerController
      ensures isLocalPlayerController
    {
      isLocalPlayerController := true;
    }

    /** TryToRespawn: a controller without authority asks the server for a
        new body only when it holds none; with authority it does nothing. */
    function TryToRespawn(): (outcome: RespawnOutcome)
      reads this
      ensures outcome == RequestSent <==> localRole != Authority && pawn == null
      ensures outcome == AlreadyPossessing <==> localRole != Authority && pawn != null
      ensures outcome == Ignored <==> localRole == Authority
    {
      if localRole != Authority then
        if pawn == null then RequestSent else AlreadyPossessing
      else
        Ignored
    }

    /** GetMaxHealth: the pawn's MaxHealth, or 0 without a pawn. */
    function GetMaxHealth(): (m: int)
      reads this
      ensures pawn == null ==> m == 0
      ensures pawn != null ==> m == MAX_HEALTH
    {
      if pawn != null then pawn.GetMaxHealth() else 0
    }

    /** KilledByEnemy: credits player 1 when this controller's id is 0 and
        player 2 for any other id; with no cyclope game state nothing scores. */
    method KilledByEnemy(gs: GameState?)
      modifies gs
      ensures gs != null ==>
        gs.CurrentScore() == AddScoreSpec(old(gs.CurrentScore()), gs.localRole == Authority, uniquePlayerId == 0)
    {
      if gs != null {
        gs.AddScore(uniquePlayerId == 0);
      }
    }

    /** The engine's Possess, as far as the core relies on it: the controller
        and the character point at each other. */
    method Possess(c: Character)
      modifies this`pawn, c`controller
      ensures pawn == c && c.controller == this
    {
      pawn := c;
      c.controller := this;
    }
  }
}
