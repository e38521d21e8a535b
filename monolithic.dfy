/**
 * The older, monolithic copy of the game component (src/components/Game.tsx).
 * Its handlers and its spawn search are the same as the modular ones; its
 * level load differs in that it also stops the player's motion.
 */
module Monolithic {
  import opened Wrappers
  import opened Entities
  import World
  import PlayerController

  /**
   * The monolithic level load: everything the modular load does, and when
   * there is a player its velocity is reset to zero and it is grounded.
   */
  method LoadLevel(g: Session, level: int, environment: seq<Vec3>, draws: seq<(real, real)>)
    requires 1 <= level <= 5 && World.SpawnAttempts <= |draws|
    modifies g`npcs, g`collidables, g`portal, g.player, g`velocity, g`grounded
    ensures g.npcs == [World.LevelNpc(level)]
    ensures g.collidables == environment
    ensures g.portal == Some(Portal(World.PortalPosition, false))
    ensures g.player == old(g.player)
    ensures g.player != null ==>
      && g.player.position == World.SpawnPosition(draws, World.NpcAnchor(level), environment, World.NpcClearance)
      && g.player.yaw == old(g.player.yaw)
      && g.velocity == Vec3(0.0, 0.0, 0.0) && g.grounded
    ensures g.player == null ==> g.velocity == old(g.velocity) && g.grounded == old(g.grounded)
  {
    World.LoadLevel(g, level, environment, draws);
    if g.player != null {
      g.velocity := Vec3(0.0, 0.0, 0.0);
      g.grounded := true;
    }
  }

  /**
   * The monolithic tick. Its inline obstacle and NPC scans are the same
   * scans as the collision system's, so it is the same tick.
   */
  method UpdatePlayer(g: Session, heading: PlayerController.Heading)
    modifies g.player, g`velocity, g`grounded
    ensures g.player == old(g.player)
    ensures old(g.player) == null ==> g.velocity == old(g.velocity) && g.grounded == old(g.grounded)
    ensures g.player != null ==>
      var before := PlayerController.Motion(old(g.player.position), old(g.player.yaw), old(g.velocity.y), old(g.grounded));
      && PlayerController.Motion(g.player.position, g.player.yaw, g.velocity.y, g.grounded)
           == PlayerController.Tick(before, old(g.keys), heading, old(g.collidables), old(g.npcs))
      && g.velocity.x == old(g.velocity.x) && g.velocity.z == old(g.velocity.z)
  {
    PlayerController.UpdatePlayer(g, heading);
  }
}
