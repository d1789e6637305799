/** Engine vocabulary the gameplay rules are phrased in: network roles and
    modes (with the numeric values the engine's enums give them), optional
    values, and the abstract vectors that origins and directions are. */
module Net {

  datatype Option<+T> = None | Some(value: T)

  /** The engine's ENetRole. */
  datatype NetRole = RoleNone | SimulatedProxy | AutonomousProxy | Authority

  /** The engine's ENetMode. */
  datatype NetMode = Standalone | DedicatedServer | ListenServer | Client

  /** The underlying value of an ENetRole enumerator. */
  function RoleValue(r: NetRole): (v: nat)
    ensures v < 4
  {
    match r
    case RoleNone => 0
    case SimulatedProxy => 1
    case AutonomousProxy => 2
    case Authority => 3
  }

  /** The underlying value of an ENetMode enumerator. */
  function ModeValue(m: NetMode): (v: nat)
    ensures v < 4
  {
    match m
    case Standalone => 0
    case DedicatedServer => 1
    case ListenServer => 2
    case Client => 3
  }

  /** Comparing a role with the mode Client, as the engine's enums compare
      by value, holds exactly for the role Authority. */
  lemma RoleEqualsClientModeIffAuthority(r: NetRole)
    ensures RoleValue(r) == ModeValue(Client) <==> r == Authority
  {
  }

  /** A position or direction in the world; no arithmetic is done on these. */
  datatype Vec = Vec(x: real, y: real, z: real)

  const ZeroVec: Vec := Vec(0.0, 0.0, 0.0)

  /** Class identity of an actor (what GetClass() compares). */
  datatype ActorClass = ActorClass(name: string)

  /** How an actor's root component may move. */
  datatype Mobility = Static | Stationary | Movable
}
