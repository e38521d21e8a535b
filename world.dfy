/**
 * Level loading (the parts that are not rendering): the spawn search for the
 * player, the NPC anchor table, the level's NPC with its wrapped validator,
 * the rebuilt NPC and obstacle lists and the hidden portal.
 */
module World {
  import opened Wrappers
  import opened Entities
  import LevelData
  import Quest

  /** The spawn search draws at most this many candidates. */
  const SpawnAttempts: nat := 50
  /** The default clearance from the NPC, and the clearance from every obstacle. */
  const NpcClearance: real := 8.0
  const ObstacleClearance: real := 5.0
  /** Where the player goes when no candidate is acceptable. */
  const FallbackSpawn: Vec3 := Vec3(-8.0, 1.0, -8.0)
  /** Where every level's portal stands. */
  const PortalPosition: Vec3 := Vec3(-8.0, 2.0, 0.0)
  /** The NPC position for a level missing from the anchor table. */
  const DefaultAnchor: Vec3 := Vec3(5.0, 0.0, 0.0)

  /**
   * Each candidate uses two random numbers, in [0, 1), one for x and one for z.
   * The random source is not modelled: the numbers are an input.
   */
  predicate DrawsInRange(draws: seq<(real, real)>)
  {
    forall i :: 0 <= i < |draws| ==> 0.0 <= draws[i].0 < 1.0 && 0.0 <= draws[i].1 < 1.0
  }

  /** The candidate position for one pair of draws, at player height. */
  function Candidate(draw: (real, real)): (p: Vec3)
    ensures p.y == 1.0
    ensures 0.0 <= draw.0 < 1.0 ==> -10.0 <= p.x < 10.0
    ensures 0.0 <= draw.1 < 1.0 ==> -10.0 <= p.z < 10.0
  {
    Vec3((draw.0 - 0.5) * 20.0, 1.0, (draw.1 - 0.5) * 20.0)
  }

  /** A point projected to player height: distances in the spawn search ignore height. */
  function Flatten(v: Vec3): (f: Vec3)
    ensures f.x == v.x && f.y == 1.0 && f.z == v.z
  {
    Vec3(v.x, 1.0, v.z)
  }

  /** Some obstacle is within the obstacle clearance, measured flat. */
  predicate NearObstacle(p: Vec3, collidables: seq<Vec3>)
  {
    exists i :: 0 <= i < |collidables| && CloserThan(p, Flatten(collidables[i]), ObstacleClearance)
  }

  /** A candidate is acceptable when it keeps its distance from the NPC and from every obstacle. */
  predicate Admissible(p: Vec3, npcPosition: Vec3, collidables: seq<Vec3>, minDistance: real)
  {
    !CloserThan(p, Flatten(npcPosition), minDistance) && !NearObstacle(p, collidables)
  }

  /** The first attempt from k on whose candidate is acceptable; SpawnAttempts when there is none. */
  function FirstAdmissible(draws: seq<(real, real)>, k: nat, npcPosition: Vec3, collidables: seq<Vec3>, minDistance: real): (i: nat)
    requires k <= SpawnAttempts <= |draws|
    ensures k <= i <= SpawnAttempts
    ensures i < SpawnAttempts ==> Admissible(Candidate(draws[i]), npcPosition, collidables, minDistance)
    ensures forall j :: k <= j < i ==> !Admissible(Candidate(draws[j]), npcPosition, collidables, minDistance)
    decreases SpawnAttempts - k
  {
    if k == SpawnAttempts then k
    else if Admissible(Candidate(draws[k]), npcPosition, collidables, minDistance) then k
    else FirstAdmissible(draws, k + 1, npcPosition, collidables, minDistance)
  }

  /** The spawn point: the first acceptable candidate, else the fallback. */
  function SpawnPosition(draws: seq<(real, real)>, npcPosition: Vec3, collidables: seq<Vec3>, minDistance: real): (p: Vec3)
    requires SpawnAttempts <= |draws|
    ensures p == FallbackSpawn || Admissible(p, npcPosition, collidables, minDistance)
  {
    var i := FirstAdmissible(draws, 0, npcPosition, collidables, minDistance);
    if i < SpawnAttempts then Candidate(draws[i]) else FallbackSpawn
  }

  /** Attempt i is the first whose candidate is acceptable. */
  predicate FirstFit(draws: seq<(real, real)>, i: int, npcPosition: Vec3, collidables: seq<Vec3>, minDistance: real)
  {
    && 0 <= i < SpawnAttempts <= |draws|
    && Admissible(Candidate(draws[i]), npcPosition, collidables, minDistance)
    && forall j :: 0 <= j < i ==> !Admissible(Candidate(draws[j]), npcPosition, collidables, minDistance)
  }

  /**
   * A spawn point is the fallback, or a point at player height inside the
   * 20 by 20 square around the origin that keeps its distance from the NPC
   * and from every obstacle, and that was the first such candidate drawn.
   */
  lemma SpawnPositionSpec(draws: seq<(real, real)>, npcPosition: Vec3, collidables: seq<Vec3>, minDistance: real)
    requires SpawnAttempts <= |draws| && DrawsInRange(draws)
    ensures var p := SpawnPosition(draws, npcPosition, collidables, minDistance);
      p.y == 1.0 && -10.0 <= p.x <= 10.0 && -10.0 <= p.z <= 10.0
    ensures var p := SpawnPosition(draws, npcPosition, collidables, minDistance);
      || (p == FallbackSpawn
          && forall j :: 0 <= j < SpawnAttempts ==> !Admissible(Candidate(draws[j]), npcPosition, collidables, minDistance))
      || (exists i :: FirstFit(draws, i, npcPosition, collidables, minDistance) && p == Candidate(draws[i]))
  {
    var i := FirstAdmissible(draws, 0, npcPosition, collidables, minDistance);
    if i < SpawnAttempts {
      assert 0.0 <= draws[i].0 < 1.0 && 0.0 <= draws[i].1 < 1.0;
      assert FirstFit(draws, i, npcPosition, collidables, minDistance);
    }
  }

  /** Only the first SpawnAttempts pairs of draws are ever looked at. */
  lemma {:induction false} SearchUsesFirstDraws(d1: seq<(real, real)>, d2: seq<(real, real)>, k: nat, npcPosition: Vec3, collidables: seq<Vec3>, minDistance: real)
    requires k <= SpawnAttempts <= |d1| && SpawnAttempts <= |d2|
    requires d1[..SpawnAttempts] == d2[..SpawnAttempts]
    ensures FirstAdmissible(d1, k, npcPosition, collidables, minDistance) == FirstAdmissible(d2, k, npcPosition, collidables, minDistance)
    decreases SpawnAttempts - k
  {
    if k < SpawnAttempts {
      assert d1[k] == d1[..SpawnAttempts][k] == d2[k];
      SearchUsesFirstDraws(d1, d2, k + 1, npcPosition, collidables, minDistance);
    }
  }

  lemma SpawnUsesFirstDraws(d1: seq<(real, real)>, d2: seq<(real, real)>, npcPosition: Vec3, collidables: seq<Vec3>, minDistance: real)
    requires SpawnAttempts <= |d1| && SpawnAttempts <= |d2|
    requires d1[..SpawnAttempts] == d2[..SpawnAttempts]
    ensures SpawnPosition(d1, npcPosition, collidables, minDistance) == SpawnPosition(d2, npcPosition, collidables, minDistance)
  {
    SearchUsesFirstDraws(d1, d2, 0, npcPosition, collidables, minDistance);
    var i := FirstAdmissible(d1, 0, npcPosition, collidables, minDistance);
    if i < SpawnAttempts {
      assert d1[i] == d1[..SpawnAttempts][i] == d2[i];
    }
  }

  /** Two obstacle lists that agree on every obstacle's ground position. */
  predicate SameFootprint(c1: seq<Vec3>, c2: seq<Vec3>)
  {
    |c1| == |c2| && forall i :: 0 <= i < |c1| ==> Flatten(c1[i]) == Flatten(c2[i])
  }

  /** The search ignores the heights of the NPC and of the obstacles. */
  lemma {:induction false} SearchIgnoresHeight(draws: seq<(real, real)>, k: nat, n1: Vec3, n2: Vec3, c1: seq<Vec3>, c2: seq<Vec3>, minDistance: real)
    requires k <= SpawnAttempts <= |draws|
    requires Flatten(n1) == Flatten(n2) && SameFootprint(c1, c2)
    ensures FirstAdmissible(draws, k, n1, c1, minDistance) == FirstAdmissible(draws, k, n2, c2, minDistance)
    decreases SpawnAttempts - k
  {
    if k < SpawnAttempts {
      var p := Candidate(draws[k]);
      assert NearObstacle(p, c1) <==> NearObstacle(p, c2) by {
        if NearObstacle(p, c1) {
          var i :| 0 <= i < |c1| && CloserThan(p, Flatten(c1[i]), ObstacleClearance);
          assert CloserThan(p, Flatten(c2[i]), ObstacleClearance);
        }
        if NearObstacle(p, c2) {
          var i :| 0 <= i < |c2| && CloserThan(p, Flatten(c2[i]), ObstacleClearance);
          assert CloserThan(p, Flatten(c1[i]), ObstacleClearance);
        }
      }
      SearchIgnoresHeight(draws, k + 1, n1, n2, c1, c2, minDistance);
    }
  }

  /**
   * The search, as the program runs it: a loop over at most SpawnAttempts
   * candidates that skips one too close to the NPC, scans the obstacles
   * until the first one too close, and returns the first candidate that
   * passes both tests.
   */
  method GenerateRandomSpawnPosition(npcPosition: Vec3, collidables: seq<Vec3>, draws: seq<(real, real)>, minDistance: real)
    returns (p: Vec3)
    requires SpawnAttempts <= |draws|
    ensures p == SpawnPosition(draws, npcPosition, collidables, minDistance)
  {
    var attempts := 0;
    while attempts < SpawnAttempts
      invariant 0 <= attempts <= SpawnAttempts
      invariant FirstAdmissible(draws, 0, npcPosition, collidables, minDistance)
             == FirstAdmissible(draws, attempts, npcPosition, collidables, minDistance)
      decreases SpawnAttempts - attempts
    {
      var testPosition := Candidate(draws[attempts]);
      if CloserThan(testPosition, Flatten(npcPosition), minDistance) {
        attempts := attempts + 1;
        continue;
      }
      var tooClose := false;
      var i := 0;
      while i < |collidables|
        invariant 0 <= i <= |collidables|
        invariant !tooClose ==> forall k :: 0 <= k < i ==> !CloserThan(testPosition, Flatten(collidables[k]), ObstacleClearance)
        invariant tooClose ==> NearObstacle(testPosition, collidables)
        decreases |collidables| - i
      {
        if CloserThan(testPosition, Flatten(collidables[i]), ObstacleClearance) {
          tooClose := true;
          break;
        }
        i := i + 1;
      }
      if !tooClose {
        return testPosition;
      }
      attempts := attempts + 1;
    }
    return FallbackSpawn;
  }

  /** The NPC positions of levels 1 to 5, in order. */
  const AnchorTable: seq<Vec3> := [
    Vec3(5.0, 0.0, 0.0), Vec3(-5.0, 0.0, 3.0), Vec3(0.0, 0.0, -5.0), Vec3(6.0, 0.0, -2.0), Vec3(0.0, 0.0, 5.0)]

  /** The NPC position for a level: its table entry, or the default. */
  function NpcAnchor(level: int): (a: Vec3)
    ensures 1 <= level <= 5 ==> a == AnchorTable[level - 1]
    ensures !(1 <= level <= 5) ==> a == DefaultAnchor
  {
    if level == 1 then Vec3(5.0, 0.0, 0.0)
    else if level == 2 then Vec3(-5.0, 0.0, 3.0)
    else if level == 3 then Vec3(0.0, 0.0, -5.0)
    else if level == 4 then Vec3(6.0, 0.0, -2.0)
    else if level == 5 then Vec3(0.0, 0.0, 5.0)
    else DefaultAnchor
  }

  /** The fallback spawn keeps the default NPC clearance from every table anchor. */
  lemma FallbackClearsAnchors(level: int)
    ensures !CloserThan(FallbackSpawn, Flatten(NpcAnchor(level)), NpcClearance)
  {
  }

  /** A point at player height is at least as far from an NPC as from its ground projection. */
  lemma FlatDistanceIsShorter(p: Vec3, a: Vec3)
    requires p.y == 1.0 && a.y == 0.0
    ensures DistSq(p, a) == DistSq(p, Flatten(a)) + 1.0
  {
  }

  /**
   * A freshly spawned player is out of reach of the level's NPC: too far to
   * talk to it (3) and to collide with it (2).
   */
  lemma SpawnOutOfReach(draws: seq<(real, real)>, level: int, collidables: seq<Vec3>)
    requires SpawnAttempts <= |draws|
    ensures var p := SpawnPosition(draws, NpcAnchor(level), collidables, NpcClearance);
      !CloserThan(p, NpcAnchor(level), 3.0) && !CloserThan(p, NpcAnchor(level), 2.0)
  {
    var p := SpawnPosition(draws, NpcAnchor(level), collidables, NpcClearance);
    FallbackClearsAnchors(level);
    assert !CloserThan(p, Flatten(NpcAnchor(level)), NpcClearance);
    var i := FirstAdmissible(draws, 0, NpcAnchor(level), collidables, NpcClearance);
    assert p.y == 1.0;
    FlatDistanceIsShorter(p, NpcAnchor(level));
  }

  /** The level's NPC: its table entry, its anchor, and its validator wrapped for the level. */
  function LevelNpc(level: int): (npc: Npc)
    requires 1 <= level <= 5
    ensures var e := LevelData.Entry(level).value;
      && npc.name == e.name && npc.dialog1 == e.dialog1 && npc.dialog2 == e.dialog2 && npc.dialog3 == e.dialog3
      && npc.completedDialog == e.completedDialog && npc.objective == e.objective
      && npc.hint1 == e.hint1 && npc.hint2 == e.hint2 && npc.hint3 == e.hint3
    ensures npc.position == AnchorTable[level - 1]
    ensures npc.validator == QuestValidator(level)
  {
    var e := LevelData.Entry(level).value;
    Npc(e.name, NpcAnchor(level), e.dialog1, e.dialog2, e.dialog3, e.completedDialog, e.objective,
        e.hint1, e.hint2, e.hint3, QuestValidator(level))
  }

  /** Validators the game can build: a level validator names one of the five levels. */
  predicate KnownValidator(v: Validator)
  {
    v.QuestValidator? ==> 1 <= v.level <= 5
  }

  /** The verdict of an NPC's validator on a code and its output. */
  predicate Verdict(v: Validator, code: string, output: string)
    requires KnownValidator(v)
  {
    match v
    case QuestValidator(level) => LevelData.Validate(level, code, output)
    case FinalValidator => LevelData.FinalValidate(code, output)
  }

  /**
   * Calling an NPC's validator: the underlying verdict, and the state it
   * leaves. A passing level validator marks the quest complete and opens the
   * portal, changing nothing else; otherwise the state is unchanged.
   */
  function CallValidator(s: GameState, v: Validator, code: string, output: string): (r: (bool, GameState))
    requires KnownValidator(v)
    ensures r.0 == Verdict(v, code, output)
    ensures r.0 ==> r.1 == Quest.QuestSolved(s) && v.QuestValidator?
    ensures !r.0 ==> r.1 == s
  {
    match v
    case QuestValidator(level) =>
      if LevelData.Validate(level, code, output) then (true, Quest.QuestSolved(s)) else (false, s)
    case FinalValidator => (LevelData.FinalValidate(code, output), s)
  }

  /**
   * Loads a level into the session: the NPC and obstacle lists are emptied
   * and rebuilt, the player (when there is one) is moved to the spawn
   * point, exactly one NPC is added and a hidden portal is placed. The
   * obstacles the environment builders add are an input (their placement is
   * rendering code); so are the random draws. Velocity and grounding are
   * left alone.
   */
  method LoadLevel(g: Session, level: int, environment: seq<Vec3>, draws: seq<(real, real)>)
    requires 1 <= level <= 5 && SpawnAttempts <= |draws|
    modifies g`npcs, g`collidables, g`portal, g.player
    ensures g.npcs == [LevelNpc(level)]
    ensures g.collidables == environment
    ensures g.portal == Some(Portal(PortalPosition, false))
    ensures g.player == old(g.player)
    ensures g.player != null ==>
      g.player.position == SpawnPosition(draws, NpcAnchor(level), environment, NpcClearance)
      && g.player.yaw == old(g.player.yaw)
  {
    g.npcs := [];
    g.collidables := [];
    for i := 0 to |environment|
      invariant g.collidables == environment[..i]
      modifies g`collidables
    {
      g.collidables := g.collidables + [environment[i]];
    }
    var npc := LevelNpc(level);
    if g.player != null {
      var spawn := GenerateRandomSpawnPosition(npc.position, g.collidables, draws, NpcClearance);
      g.player.position := spawn;
    }
    g.npcs := g.npcs + [npc];
    g.portal := Some(Portal(PortalPosition, false));
  }
}
