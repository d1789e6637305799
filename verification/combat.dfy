/** The gameplay rules of the fighting character, as values: the health and
    damage machine, the damage-eligibility test, the table that decides which
    message a shooting client sends to the server, the server's acceptance of
    a reported hit, and what one shot amounts to across client and server.
    The Character class in module Player runs these rules on its fields. */
module Combat {
  import opened Net

  /** MaxHealth as set by the character's constructor. */
  const MAX_HEALTH: int := 3

  /** LaserRange as set by the character's constructor. */
  const LASER_RANGE: real := 4000.0

  /** What the rules look at in any actor: its class, its roles on the
      machine looking at it, whether it is torn off, and its mobility. */
  datatype ActorView = ActorView(
    cls: ActorClass,
    localRole: NetRole,
    remoteRole: NetRole,
    tornOff: bool,
    mobility: Mobility)

  /** Where a character runs: the net mode of the machine, the character's
      roles there, and whether a local player controls it. */
  datatype NetContext = NetContext(
    netMode: NetMode,
    localRole: NetRole,
    remoteRole: NetRole,
    locallyControlled: bool)

  // ---------------------------------------------------------------------
  // Health and damage

  /** A character's health and whether Destroy() has been called on it. */
  datatype Vitals = Vitals(health: int, destroyed: bool)

  /** The outcome of one TakeDamage call: the new vitals, and whether the
      call took the death branch (crediting the instigator and destroying). */
  datatype DamageStep = DamageStep(after: Vitals, killed: bool)

  /** Vitals right after BeginPlay. */
  function Begun(): Vitals
  {
    Vitals(MAX_HEALTH, false)
  }

  /** One TakeDamage call; sameClass says whether the damage causer's class
      equals the damaged character's class. The damage amount is ignored:
      an accepted hit always costs exactly one point. */
  function Damage(v: Vitals, sameClass: bool): DamageStep
  {
    if sameClass then
      var h := v.health - 1;
      DamageStep(Vitals(h, v.destroyed || h <= 0), h <= 0)
    else
      DamageStep(v, false)
  }

  /** The final vitals and the number of kill credits after a series of
      TakeDamage calls; hits[i] says whether call i had a same-class causer. */
  datatype HitRun = HitRun(final: Vitals, kills: nat)

  function RunHits(v: Vitals, hits: seq<bool>): HitRun
    decreases |hits|
  {
    if hits == [] then HitRun(v, 0)
    else
      var step := Damage(v, hits[0]);
      var rest := RunHits(step.after, hits[1..]);
      HitRun(rest.final, rest.kills + if step.killed then 1 else 0)
  }

  /** The number of eligible (same-class) hits in a series. */
  function Eligible(hits: seq<bool>): nat
    decreases |hits|
  {
    if hits == [] then 0 else (if hits[0] then 1 else 0) + Eligible(hits[1..])
  }

  /** How many of e eligible hits, taken from health h, end at health <= 0:
      the hits j in 1..e with h - j <= 0. */
  function FatalHits(h: int, e: nat): nat
  {
    if h <= 1 then e
    else if e >= h then e - h + 1
    else 0
  }

  /** The whole effect of a series of TakeDamage calls: health drops by the
      number of eligible hits, every eligible hit at or below zero credits a
      kill, and the character is destroyed once any kill was credited. */
  lemma {:induction false} RunHitsEffect(v: Vitals, hits: seq<bool>)
    ensures RunHits(v, hits).final.health == v.health - Eligible(hits)
    ensures RunHits(v, hits).kills == FatalHits(v.health, Eligible(hits))
    ensures RunHits(v, hits).final.destroyed == (v.destroyed || RunHits(v, hits).kills > 0)
    decreases |hits|
  {
    if hits != [] {
      var step := Damage(v, hits[0]);
      RunHitsEffect(step.after, hits[1..]);
    }
  }

  /** From BeginPlay: fewer than MaxHealth eligible hits leave the character
      alive at MaxHealth minus the hits with no kill credited; the MaxHealth-th
      eligible hit brings health to zero, credits exactly one kill and
      destroys the character. */
  lemma HitsFromBegun(hits: seq<bool>)
    ensures var r := RunHits(Begun(), hits);
      Eligible(hits) < MAX_HEALTH ==>
        r.final.health == MAX_HEALTH - Eligible(hits) && r.final.health > 0 &&
        !r.final.destroyed && r.kills == 0
    ensures var r := RunHits(Begun(), hits);
      Eligible(hits) == MAX_HEALTH ==>
        r.final.health == 0 && r.final.destroyed && r.kills == 1
  {
    RunHitsEffect(Begun(), hits);
  }

  /** Health never rises under damage. */
  lemma HealthNeverRises(v: Vitals, hits: seq<bool>)
    ensures RunHits(v, hits).final.health <= v.health
  {
    RunHitsEffect(v, hits);
  }

  /** Hits whose causer is of another class change nothing at all. */
  lemma {:induction false} IneligibleHitsChangeNothing(v: Vitals, hits: seq<bool>)
    requires forall i :: 0 <= i < |hits| ==> !hits[i]
    ensures RunHits(v, hits) == HitRun(v, 0)
    decreases |hits|
  {
    if hits != [] {
      IneligibleHitsChangeNothing(v, hits[1..]);
    }
  }

  // ---------------------------------------------------------------------
  // Who registers damage

  /** ShouldDealDamage: a hit actor is damaged when the shooter's machine is
      not a client, or the actor is authoritative here, or it is torn off.
      No actor means no damage. */
  function ShouldDealDamage(netMode: NetMode, target: Option<ActorView>): bool
  {
    match target
    case None => false
    case Some(a) => netMode != Client || a.localRole == Authority || a.tornOff
  }

  /** On a client, an actor that is only a replicated proxy there (neither
      authoritative nor torn off) is never damaged; off a client every actor
      is, and an absent actor never is. */
  lemma ShouldDealDamageTable(netMode: NetMode, target: Option<ActorView>)
    ensures target.None? ==> !ShouldDealDamage(netMode, target)
    ensures target.Some? && netMode != Client ==> ShouldDealDamage(netMode, target)
    ensures target.Some? && netMode == Client ==>
      (ShouldDealDamage(netMode, target) <==> target.value.localRole == Authority || target.value.tornOff)
  {
  }

  // ---------------------------------------------------------------------
  // Hit routing and confirmation

  /** The server message a shot sends. */
  datatype ServerMsg = NotifyHit | NotifyMiss | NoMsg

  /** ProcessHit's routing. The guard compares the character's remote role
      with the net mode Client by enumerator value, as the source does. */
  function Route(locallyControlled: bool, remoteRole: NetRole, actor: Option<ActorView>, blocking: bool): ServerMsg
  {
    if locallyControlled && RoleValue(remoteRole) == ModeValue(Client) then
      match actor
      case Some(a) => if a.remoteRole == Authority then NotifyHit else NoMsg
      case None => if blocking then NotifyHit else NotifyMiss
    else
      NoMsg
  }

  /** The routing table in plain terms: a message is sent only by a locally
      controlled character whose remote role is Authority (a client's own
      pawn); then an actor that is authoritative elsewhere, or a blocking hit
      with no actor, gives NotifyHit, no actor and no block gives NotifyMiss,
      and any other actor gives no message. Every case gets exactly one
      answer. */
  lemma RouteTable(locallyControlled: bool, remoteRole: NetRole, actor: Option<ActorView>, blocking: bool)
    ensures var sender := locallyControlled && remoteRole == Authority;
      Route(locallyControlled, remoteRole, actor, blocking) == NotifyHit <==>
        sender && ((actor.Some? && actor.value.remoteRole == Authority) || (actor.None? && blocking))
    ensures var sender := locallyControlled && remoteRole == Authority;
      Route(locallyControlled, remoteRole, actor, blocking) == NotifyMiss <==>
        sender && actor.None? && !blocking
    ensures var sender := locallyControlled && remoteRole == Authority;
      Route(locallyControlled, remoteRole, actor, blocking) == NoMsg <==>
        !sender || (actor.Some? && actor.value.remoteRole != Authority)
  {
    RoleEqualsClientModeIffAuthority(remoteRole);
  }

  /** Which branch Server_NotifyHit takes for a reported impact. */
  datatype NotifyHitBranch = Rejected | BlockWithoutActor | StaticActor | MovableActor

  function ServerNotifyHitBranch(hasInstigator: bool, actor: Option<ActorView>, blocking: bool): NotifyHitBranch
  {
    if hasInstigator && (actor.Some? || blocking) then
      match actor
      case None => if blocking then BlockWithoutActor else Rejected
      case Some(a) => if a.mobility == Static || a.mobility == Stationary then StaticActor else MovableActor
    else
      Rejected
  }

  /** Server_NotifyHit acts exactly when the shooter has an instigator and the
      impact has an actor or is blocking; every branch it can take then makes
      the same confirmation call, so trust in the reported impact does not
      depend on the target's mobility. */
  lemma ServerNotifyHitGuard(hasInstigator: bool, actor: Option<ActorView>, blocking: bool)
    ensures ServerNotifyHitBranch(hasInstigator, actor, blocking) != Rejected <==>
      hasInstigator && (actor.Some? || blocking)
  {
  }

  /** A laser trail from origin along dir, of the given length. */
  datatype Trail = Trail(origin: Vec, dir: Vec, length: real)

  /** ProcessHit_Confirmed's local trail: none on a dedicated server; else it
      ends at the impact distance on a blocking hit, at LaserRange otherwise. */
  function ConfirmedTrail(netMode: NetMode, origin: Vec, dir: Vec, blocking: bool, distance: real): Option<Trail>
  {
    if netMode == DedicatedServer then None
    else if blocking then Some(Trail(origin, dir, distance))
    else Some(Trail(origin, dir, LASER_RANGE))
  }

  /** A trace never reaches past LaserRange, so neither does a trail. */
  lemma TrailWithinRange(netMode: NetMode, origin: Vec, dir: Vec, blocking: bool, distance: real)
    requires 0.0 <= distance <= LASER_RANGE
    ensures var t := ConfirmedTrail(netMode, origin, dir, blocking, distance);
      t.Some? ==> t.value.origin == origin && 0.0 <= t.value.length <= LASER_RANGE
    ensures ConfirmedTrail(netMode, origin, dir, blocking, distance).Some? <==> netMode != DedicatedServer
  {
  }

  // ---------------------------------------------------------------------
  // One shot across the shooter's machine and the authority

  /** How many times one shot reaches DoDamage: once in the shooter's own
      ProcessHit_Confirmed if ShouldDealDamage holds there, and once more on
      the authority if the shot was routed as NotifyHit, Server_NotifyHit
      accepted it and ShouldDealDamage holds on the authority. here is the hit
      actor as the shooter's machine sees it, onServer the same actor as the
      authority sees it. */
  function ShotDamageCount(shooter: NetContext, here: Option<ActorView>, onServer: Option<ActorView>,
                           blocking: bool, serverMode: NetMode, serverHasInstigator: bool): nat
  {
    var local := if ShouldDealDamage(shooter.netMode, here) then 1 else 0;
    var confirmed :=
      Route(shooter.locallyControlled, shooter.remoteRole, here, blocking) == NotifyHit &&
      ServerNotifyHitBranch(serverHasInstigator, onServer, blocking) != Rejected &&
      ShouldDealDamage(serverMode, onServer);
    local + if confirmed then 1 else 0
  }

  /** A client's shot at a replicated actor (a proxy on the client, owned by
      the authority) damages it exactly once, and only on the authority. */
  lemma ClientShotDamagesOnceOnAuthority(shooter: NetContext, a: ActorView, onServer: ActorView,
                                         blocking: bool, serverMode: NetMode)
    requires shooter.netMode == Client && shooter.locallyControlled && shooter.remoteRole == Authority
    requires a.localRole != Authority && !a.tornOff && a.remoteRole == Authority
    requires serverMode != Client
    ensures !ShouldDealDamage(shooter.netMode, Some(a))
    ensures ShotDamageCount(shooter, Some(a), Some(onServer), blocking, serverMode, true) == 1
  {
    RoleEqualsClientModeIffAuthority(shooter.remoteRole);
  }

  /** A shot fired on the authority itself (a listen-server host, whose pawn's
      remote role is not Authority) sends nothing and damages any hit actor
      exactly once, locally. */
  lemma HostShotDamagesOnceLocally(shooter: NetContext, a: ActorView, onServer: Option<ActorView>,
                                   blocking: bool, serverMode: NetMode, serverHasInstigator: bool)
    requires shooter.netMode != Client && shooter.remoteRole != Authority
    ensures Route(shooter.locallyControlled, shooter.remoteRole, Some(a), blocking) == NoMsg
    ensures ShotDamageCount(shooter, Some(a), onServer, blocking, serverMode, serverHasInstigator) == 1
  {
    RoleEqualsClientModeIffAuthority(shooter.remoteRole);
  }

  /** A shot that hits no actor damages nothing anywhere. */
  lemma ShotWithoutActorDamagesNothing(shooter: NetContext, blocking: bool, serverMode: NetMode, serverHasInstigator: bool)
    ensures ShotDamageCount(shooter, None, None, blocking, serverMode, serverHasInstigator) == 0
  {
  }
}
