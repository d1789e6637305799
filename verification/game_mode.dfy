/** The game mode: hands out player ids on login, collects the level's
    player starts once, maps ids to tagged starts, and respawns players on
    the authority. */
module Game {
  import opened Net
  import opened Combat
  import opened Player

  /** A player start placed in the level: its PlayerStartTag and location. */
  datatype Start = Start(tag: string, location: Vec)

  /** An ASCII letter in lower case; any other character unchanged. */
  function LowerAscii(c: char): (l: char)
    ensures 'A' <= c <= 'Z' ==> l as int == c as int + 32
    ensures !('A' <= c <= 'Z') ==> l == c
  {
    if 'A' <= c <= 'Z' then (c as int + 32) as char else c
  }

  /** A name with its letters folded to lower case, the form in which
      engine names are compared. */
  function FoldName(s: string): (f: string)
    ensures |f| == |s| && forall i :: 0 <= i < |s| ==> f[i] == LowerAscii(s[i])
  {
    seq(|s|, i requires 0 <= i < |s| => LowerAscii(s[i]))
  }

  /** Engine name equality, which ignores case. */
  predicate SameName(a: string, b: string)
  {
    FoldName(a) == FoldName(b)
  }

  /** Names that differ only in the case of their letters are the same
      name; names of different lengths never are. */
  lemma SameNameIgnoresCase(a: string, b: string)
    ensures |a| == |b| && (forall i :: 0 <= i < |a| ==> LowerAscii(a[i]) == LowerAscii(b[i])) ==> SameName(a, b)
    ensures |a| != |b| ==> !SameName(a, b)
  {
    if |a| == |b| && (forall i :: 0 <= i < |a| ==> LowerAscii(a[i]) == LowerAscii(b[i])) {
      assert forall i :: 0 <= i < |a| ==> FoldName(a)[i] == FoldName(b)[i];
    }
  }

  /** The start tag an id is looked up by: "Player1" for id 0, "Player2" for
      id 1, none for any other id. */
  function TagFor(id: int): Option<string>
  {
    if id == 0 then Some("Player1")
    else if id == 1 then Some("Player2")
    else None
  }

  /** The last start in the list whose tag is the same name as tag, if any. */
  function LastTagged(starts: seq<Start>, tag: string): (r: Option<Start>)
    ensures r.Some? <==> exists j :: 0 <= j < |starts| && SameName(starts[j].tag, tag)
    ensures r.Some? ==> exists j :: 0 <= j < |starts| && starts[j] == r.value && SameName(starts[j].tag, tag) &&
                                    forall k :: j < k < |starts| ==> !SameName(starts[k].tag, tag)
    decreases |starts|
  {
    if starts == [] then None
    else if SameName(starts[|starts| - 1].tag, tag) then Some(starts[|starts| - 1])
    else LastTagged(starts[..|starts| - 1], tag)
  }

  /** The start ChoosePlayerStart gives a controller with this id. */
  function ChooseStart(starts: seq<Start>, id: int): Option<Start>
  {
    match TagFor(id)
    case None => None
    case Some(tag) => LastTagged(starts, tag)
  }

  /** Ids other than 0 and 1 never get a start; 0 and 1 get one exactly when
      some start's tag is their tag up to case, and then it is. */
  lemma ChooseStartTable(starts: seq<Start>, id: int)
    ensures id != 0 && id != 1 ==> ChooseStart(starts, id) == None
    ensures id == 0 ==> (ChooseStart(starts, id).Some? <==> exists j :: 0 <= j < |starts| && SameName(starts[j].tag, "Player1"))
    ensures id == 1 ==> (ChooseStart(starts, id).Some? <==> exists j :: 0 <= j < |starts| && SameName(starts[j].tag, "Player2"))
    ensures id == 0 && ChooseStart(starts, id).Some? ==> SameName(ChooseStart(starts, id).value.tag, "Player1")
    ensures id == 1 && ChooseStart(starts, id).Some? ==> SameName(ChooseStart(starts, id).value.tag, "Player2")
  {
  }

  /** A start tagged "player1" in lower case is still player 1's. */
  lemma LowerCaseTagIsChosen(v: Vec)
    ensures ChooseStart([Start("player1", v)], 0) == Some(Start("player1", v))
    ensures ChooseStart([Start("PLAYER2", v)], 1) == Some(Start("PLAYER2", v))
  {
    SameNameIgnoresCase("player1", "Player1");
    SameNameIgnoresCase("PLAYER2", "Player2");
  }

  /** In a level where one start alone carries an id's tag, up to case, that
      id always gets exactly that start. */
  lemma UniquelyTaggedStartIsChosen(starts: seq<Start>, j: nat, id: int, tag: string)
    requires j < |starts| && TagFor(id) == Some(tag) && SameName(starts[j].tag, tag)
    requires forall k :: 0 <= k < |starts| && k != j ==> !SameName(starts[k].tag, tag)
    ensures ChooseStart(starts, id) == Some(starts[j])
  {
    var r := LastTagged(starts, tag);
    assert r.Some?;
    var i :| 0 <= i < |starts| && starts[i] == r.value && SameName(starts[i].tag, tag);
    assert i == j;
  }

  /** The scan at the end of ChoosePlayerStart: walks the cached starts and
      keeps overwriting the result with every start whose tag matches the
      controller's id. */
  method ScanPlayerStarts(starts: seq<Start>, id: int) returns (out: Option<Start>)
    ensures out == ChooseStart(starts, id)
  {
    out := None;
    var i := 0;
    while i < |starts|
      invariant 0 <= i <= |starts|
      invariant out == ChooseStart(starts[..i], id)
    {
      var start := starts[i];
      assert starts[..i + 1][..i] == starts[..i];
      if id == 0 {
        if SameName(start.tag, "Player1") {
          out := Some(start);
        }
      } else if id == 1 {
        if SameName(start.tag, "Player2") {
          out := Some(start);
        }
      }
      i := i + 1;
    }
    assert starts[..i] == starts;
  }

  /** The ids handed out so far are 0, 1, 2, ... in order. */
  ghost predicate CountingIds(ids: seq<int>)
  {
    forall i :: 0 <= i < |ids| ==> ids[i] == i
  }

  /** Ids handed out by counting are strictly increasing, hence never reused. */
  lemma CountingIdsAreDistinct(ids: seq<int>)
    requires CountingIds(ids)
    ensures forall i, j :: 0 <= i < j < |ids| ==> ids[i] < ids[j]
    ensures forall n :: n >= |ids| ==> n !in ids
  {
  }

  /** The game mode's own GetAuthGameMode lookup, as RequestGMRespawn sees it. */
  datatype AuthGameMode = NoGameMode | OtherGameMode | CyclopeGameMode(gm: GameMode)

  class GameMode {
    const localRole: NetRole
    const netMode: NetMode
    const defaultPawnClass: ActorClass
    /** The player starts the world's actor iterator yields, in its order. */
    const levelStarts: seq<Start>
    var freeId: int
    var playerStarts: seq<Start>
    var collectedPlayerStarts: bool
    /** Every id handed out so far, in order. */
    ghost var issued: seq<int>

    ghost predicate Valid()
      reads this
    {
      freeId == |issued| && CountingIds(issued)
    }

    /** No id handed out yet, no starts collected. */
    constructor (localRole: NetRole, netMode: NetMode, defaultPawnClass: ActorClass, levelStarts: seq<Start>)
      ensures Valid()
      ensures this.localRole == localRole && this.netMode == netMode
      ensures this.defaultPawnClass == defaultPawnClass && this.levelStarts == levelStarts
      ensures freeId == 0 && issued == [] && playerStarts == [] && !collectedPlayerStarts
    {
      this.localRole, this.netMode := localRole, netMode;
      this.defaultPawnClass, this.levelStarts := defaultPawnClass, levelStarts;
      freeId, playerStarts, collectedPlayerStarts := 0, [], false;
      issued := [];
    }

    /** Login: when the controller spawns, it gets the current FreeID, which
        then moves on by one; a controller logging in as a simulated proxy is
        made a local player controller. When spawning fails, no id is used. */
    method Login(inRemoteRole: NetRole, spawnSucceeds: bool) returns (pc: PlayerController?)
      requires Valid()
      modifies this`freeId, this`issued
      ensures Valid()
      ensures spawnSucceeds ==>
        && pc != null && fresh(pc)
        && pc.uniquePlayerId == old(freeId) && pc.uniquePlayerId !in old(issued)
        && freeId == old(freeId) + 1 && issued == old(issued) + [pc.uniquePlayerId]
        && pc.isLocalPlayerController == (inRemoteRole == SimulatedProxy)
        && pc.pawn == null && pc.localRole == Authority
      ensures !spawnSucceeds ==> pc == null && freeId == old(freeId) && issued == old(issued)
    {
      pc := null;
      if spawnSucceeds {
        pc := new PlayerController(Authority);
        CountingIdsAreDistinct(issued);
        pc.SetPlayerID(freeId);
        issued := issued + [freeId];
        freeId := freeId + 1;
        if inRemoteRole == SimulatedProxy {
          pc.SetAsLocalPlayerController();
        }
      }
    }

    /** ChoosePlayerStart: the first call caches the level's starts and sets
        the flag; later calls leave both alone. The result is the last cached
        start tagged for the controller's id. */
    method ChoosePlayerStart(player: PlayerController) returns (start: Option<Start>)
      modifies this`playerStarts, this`collectedPlayerStarts
      ensures collectedPlayerStarts
      ensures playerStarts == if old(collectedPlayerStarts) then old(playerStarts)
                              else old(playerStarts) + levelStarts
      ensures start == ChooseStart(playerStarts, player.uniquePlayerId)
    {
      if !collectedPlayerStarts {
        var i := 0;
        while i < |levelStarts|
          invariant 0 <= i <= |levelStarts|
          invariant playerStarts == old(playerStarts) + levelStarts[..i]
        {
          playerStarts := playerStarts + [levelStarts[i]];
          i := i + 1;
        }
        assert levelStarts[..i] == levelStarts;
        collectedPlayerStarts := true;
      }
      start := ScanPlayerStarts(playerStarts, player.GetPlayerID());
    }

    /** What Respawn does: for a player on the authority, a fresh character of
        the default pawn class at full health is spawned at the chosen start
        and possessed, if spawning succeeds; in every other case nothing
        changes. */
    twostate predicate Respawned(player: PlayerController?, coin: bool, spawnSucceeds: bool, new newChar: Character?)
      reads this, player, newChar
      requires player != null && localRole == Authority ==> StartIndex(coin) < |playerStarts|
    {
      if player != null && localRole == Authority && spawnSucceeds then
        && newChar != null && fresh(newChar)
        && player.pawn == newChar && newChar.controller == player
        && newChar.CurrentVitals() == Begun()
        && newChar.cls == defaultPawnClass
        && newChar.muzzle == playerStarts[StartIndex(coin)].location
        && newChar.net.localRole == Authority
        && newChar.net.locallyControlled == player.isLocalPlayerController
      else
        newChar == null && (player == null || player.pawn == old(player.pawn))
    }

    /** The start index picked from the random coin. */
    static function StartIndex(coin: bool): nat
    {
      if coin then 0 else 1
    }

    /** Respawn: indexes the cached starts at 0 or 1 by a coin flip, so the
        chosen index must exist. */
    method Respawn(player: PlayerController?, coin: bool, spawnSucceeds: bool) returns (newChar: Character?)
      requires player != null && localRole == Authority ==> StartIndex(coin) < |playerStarts|
      modifies if player != null then {player} else {}`pawn
      ensures Respawned(player, coin, spawnSucceeds, newChar)
    {
      newChar := null;
      if player != null {
        if localRole == Authority {
          var idx := StartIndex(coin);
          if spawnSucceeds {
            var remote := if player.isLocalPlayerController then SimulatedProxy else AutonomousProxy;
            var ctx := NetContext(netMode, Authority, remote, player.isLocalPlayerController);
            newChar := new Character(defaultPawnClass, ctx, false, Movable, true, playerStarts[idx].location);
            newChar.BeginPlay();
            player.Possess(newChar);
          }
        }
      }
    }
  }

  /** RequestGMRespawn, run on the controller's server side: forwards to the
      game mode's Respawn only with authority and only when the world's game
      mode is a cyclope game mode. It sits here because it calls into the
      game mode. */
  method RequestGMRespawn(pc: PlayerController, authGameMode: AuthGameMode, coin: bool, spawnSucceeds: bool)
    returns (forwarded: bool, newChar: Character?)
    requires pc.localRole == Authority && authGameMode.CyclopeGameMode? && authGameMode.gm.localRole == Authority ==>
      GameMode.StartIndex(coin) < |authGameMode.gm.playerStarts|
    modifies pc`pawn
    ensures forwarded <==> pc.localRole == Authority && authGameMode.CyclopeGameMode?
    ensures forwarded ==> authGameMode.gm.Respawned(pc, coin, spawnSucceeds, newChar)
    ensures !forwarded ==> newChar == null && pc.pawn == old(pc.pawn)
  {
    forwarded, newChar := false, null;
    if pc.localRole == Authority {
      if authGameMode.CyclopeGameMode? {
        forwarded := true;
        newChar := authGameMode.gm.Respawn(pc, coin, spawnSucceeds);
      }
    }
  }

  /** Once the starts are cached, choosing twice for the same controller gives
      the same start. */
  method ChoosePlayerStartIsStable(gm: GameMode, pc: PlayerController) returns (first: Option<Start>, second: Option<Start>)
    modifies gm`playerStarts, gm`collectedPlayerStarts
    ensures first == second
    ensures gm.playerStarts == if old(gm.collectedPlayerStarts) then old(gm.playerStarts)
                               else old(gm.playerStarts) + gm.levelStarts
  {
    first := gm.ChoosePlayerStart(pc);
    second := gm.ChoosePlayerStart(pc);
  }
}
