/**
 * Collision accept/reject: a moved player is rolled back to where it stood
 * when the new position comes too close to an obstacle or to an NPC.
 */
module Collision {
  import opened Entities

  /** How close the player may come to an obstacle, and to an NPC. */
  const ObstacleRadius: real := 2.5
  const NpcRadius: real := 2.0

  /** Some obstacle is closer than the obstacle radius. */
  predicate HitsObstacle(p: Vec3, collidables: seq<Vec3>)
  {
    exists i :: 0 <= i < |collidables| && CloserThan(p, collidables[i], ObstacleRadius)
  }

  /** Some NPC is closer than the NPC radius. */
  predicate HitsNpc(p: Vec3, npcs: seq<Npc>)
  {
    exists i :: 0 <= i < |npcs| && CloserThan(p, npcs[i].position, NpcRadius)
  }

  predicate Blocked(p: Vec3, collidables: seq<Vec3>, npcs: seq<Npc>)
  {
    HitsObstacle(p, collidables) || HitsNpc(p, npcs)
  }

  /** Where the player ends up: the candidate when it is free, else exactly the original position. */
  function Resolved(candidate: Vec3, original: Vec3, collidables: seq<Vec3>, npcs: seq<Npc>): (r: Vec3)
    ensures r == candidate || r == original
    ensures r == original <== Blocked(candidate, collidables, npcs)
    ensures r == candidate <== !Blocked(candidate, collidables, npcs)
  {
    if Blocked(candidate, collidables, npcs) then original else candidate
  }

  /** The two scans, each stopping at its first hit. */
  method DetectCollision(p: Vec3, collidables: seq<Vec3>, npcs: seq<Npc>) returns (collided: bool)
    ensures collided <==> Blocked(p, collidables, npcs)
  {
    collided := false;
    var i := 0;
    while i < |collidables|
      invariant 0 <= i <= |collidables|
      invariant !collided ==> forall k :: 0 <= k < i ==> !CloserThan(p, collidables[k], ObstacleRadius)
      invariant collided ==> HitsObstacle(p, collidables)
      decreases |collidables| - i
    {
      if CloserThan(p, collidables[i], ObstacleRadius) {
        collided := true;
        break;
      }
      i := i + 1;
    }
    assert !collided ==> !HitsObstacle(p, collidables);
    var j := 0;
    var hitNpc := false;
    while j < |npcs|
      invariant 0 <= j <= |npcs|
      invariant !hitNpc ==> forall k :: 0 <= k < j ==> !CloserThan(p, npcs[k].position, NpcRadius)
      invariant hitNpc ==> HitsNpc(p, npcs)
      invariant collided <==> HitsObstacle(p, collidables) || hitNpc
      decreases |npcs| - j
    {
      if CloserThan(p, npcs[j].position, NpcRadius) {
        collided := true;
        hitNpc := true;
        break;
      }
      j := j + 1;
    }
  }

  /**
   * The player has already been moved to its candidate position; if that
   * position collides, it is copied back from the original. Only the
   * player's position is written.
   */
  method ResolvePlayerCollisions(player: Player, original: Vec3, collidables: seq<Vec3>, npcs: seq<Npc>)
    modifies player`position
    ensures player.position == Resolved(old(player.position), original, collidables, npcs)
  {
    var collided := DetectCollision(player.position, collidables, npcs);
    if collided {
      player.position := original;
    }
  }
}
