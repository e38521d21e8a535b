/**
 * Interaction with the world: the per-frame portal proximity check, talking
 * to the first NPC within reach, and entering the portal, guarded by a
 * cooldown that a deferred action clears.
 */
module Interaction {
  import opened Wrappers
  import opened Entities
  import Quest
  import World
  import Monolithic

  /** How close the player must be to enter the portal, and to talk to an NPC. */
  const PortalReach: real := 4.0
  const TalkReach: real := 3.0

  /** Whether the player at p may enter the portal: there is one, it is active, and it is within reach. */
  predicate PortalInReach(p: Vec3, portal: Option<Portal>, portalActive: bool)
  {
    portal.Some? && portalActive && CloserThan(p, portal.value.position, PortalReach)
  }

  /**
   * The per-frame check. With no player nothing happens; otherwise the
   * portal hint and the entry flag, in the state and in the two mirror
   * references, all become whether the player may enter the portal.
   */
  method CheckInteractions(g: Session)
    modifies g`state, g`showPortalHintRef, g`canEnterPortalRef
    ensures old(g.player) == null ==>
      g.state == old(g.state) && g.showPortalHintRef == old(g.showPortalHintRef)
      && g.canEnterPortalRef == old(g.canEnterPortalRef)
    ensures g.player != null ==>
      var on := PortalInReach(g.player.position, g.portal, old(g.state).portalActive);
      && g.showPortalHintRef == on && g.canEnterPortalRef == on
      && g.state == Quest.PortalFlags(old(g.state), on)
    ensures Quest.Valid(old(g.state)) ==> Quest.Valid(g.state)
  {
    if g.player == null {
      return;
    }
    var state := g.state;
    if g.portal.Some? && state.portalActive {
      if CloserThan(g.player.position, g.portal.value.position, PortalReach) {
        g.showPortalHintRef := true;
        g.canEnterPortalRef := true;
        g.state := Quest.PortalFlags(g.state, true);
      } else {
        g.showPortalHintRef := false;
        g.canEnterPortalRef := false;
        g.state := Quest.PortalFlags(g.state, false);
      }
    } else {
      g.showPortalHintRef := false;
      g.canEnterPortalRef := false;
      g.state := Quest.PortalFlags(g.state, false);
    }
  }

  /** The index of the first NPC, from k on, within talking reach of p. */
  function FirstInReach(npcs: seq<Npc>, p: Vec3, k: nat): (r: Option<nat>)
    requires k <= |npcs|
    ensures r.Some? ==> k <= r.value < |npcs| && CloserThan(p, npcs[r.value].position, TalkReach)
    ensures r.Some? ==> forall j :: k <= j < r.value ==> !CloserThan(p, npcs[j].position, TalkReach)
    ensures r.None? <==> forall j :: k <= j < |npcs| ==> !CloserThan(p, npcs[j].position, TalkReach)
    decreases |npcs| - k
  {
    if k == |npcs| then None
    else if CloserThan(p, npcs[k].position, TalkReach) then Some(k)
    else FirstInReach(npcs, p, k + 1)
  }

  /**
   * The interact key. The NPCs are scanned in list order and the first
   * within reach opens the dialog; with no player, or no NPC within reach,
   * nothing changes.
   */
  method HandleInteraction(g: Session)
    modifies g`state
    ensures g.player == null ==> g.state == old(g.state)
    ensures g.player != null ==>
      match FirstInReach(g.npcs, g.player.position, 0)
      case None => g.state == old(g.state)
      case Some(i) => g.state == Quest.Converse(old(g.state), g.npcs[i])
  {
    if g.player == null {
      return;
    }
    var i := 0;
    while i < |g.npcs|
      invariant 0 <= i <= |g.npcs|
      invariant FirstInReach(g.npcs, g.player.position, 0) == FirstInReach(g.npcs, g.player.position, i)
      invariant g.state == old(g.state)
      decreases |g.npcs| - i
    {
      var npc := g.npcs[i];
      if CloserThan(g.player.position, npc.position, TalkReach) {
        g.state := Quest.Converse(g.state, npc);
        return;
      }
      i := i + 1;
    }
  }

  /**
   * Entering the portal. Nothing happens unless the state allows entry
   * and the cooldown is off. Otherwise the cooldown goes on first; below
   * the last level the state is replaced by the next level's initial record
   * and that level is loaded (by the copy of the game the session is);
   * at the last level the epilogue dialog opens. The obstacles of the next
   * level and the random draws of its spawn search are inputs.
   */
  method HandlePortalEntry(g: Session, environment: seq<Vec3>, draws: seq<(real, real)>)
    requires g.state.currentLevel >= 0 && World.SpawnAttempts <= |draws|
    modifies g`state, g`portalCooldown, g`npcs, g`collidables, g`portal, g.player, g`velocity, g`grounded
    ensures !old(g.state).canEnterPortal || old(g.portalCooldown) ==>
      && g.state == old(g.state) && g.portalCooldown == old(g.portalCooldown)
      && g.npcs == old(g.npcs) && g.collidables == old(g.collidables) && g.portal == old(g.portal)
      && (g.player != null ==> unchanged(g.player))
      && g.velocity == old(g.velocity) && g.grounded == old(g.grounded)
    ensures old(g.state).canEnterPortal && !old(g.portalCooldown) ==>
      && g.portalCooldown
      && g.state == Quest.PortalEntered(old(g.state))
    ensures old(g.state).canEnterPortal && !old(g.portalCooldown) && old(g.state).currentLevel < 5 ==>
      && g.npcs == [World.LevelNpc(old(g.state).currentLevel + 1)]
      && g.collidables == environment
      && g.portal == Some(Portal(World.PortalPosition, false))
      && (g.player != null ==>
            && g.player.position == World.SpawnPosition(draws, World.NpcAnchor(old(g.state).currentLevel + 1), environment, World.NpcClearance)
            && g.player.yaw == old(g.player.yaw))
      && (g.variant == Modular || g.player == null ==> g.velocity == old(g.velocity) && g.grounded == old(g.grounded))
      && (g.variant == Monolithic && g.player != null ==> g.velocity == Vec3(0.0, 0.0, 0.0) && g.grounded)
    ensures old(g.state).canEnterPortal && !old(g.portalCooldown) && old(g.state).currentLevel >= 5 ==>
      && g.npcs == old(g.npcs) && g.collidables == old(g.collidables) && g.portal == old(g.portal)
      && (g.player != null ==> unchanged(g.player))
      && g.velocity == old(g.velocity) && g.grounded == old(g.grounded)
    ensures g.player == old(g.player)
  {
    var state := g.state;
    if !state.canEnterPortal || g.portalCooldown {
      return;
    }
    g.portalCooldown := true;
    if state.currentLevel < 5 {
      var nextLevel := state.currentLevel + 1;
      g.state := Quest.PortalEntered(state);
      if g.variant == Modular {
        World.LoadLevel(g, nextLevel, environment, draws);
      } else {
        Monolithic.LoadLevel(g, nextLevel, environment, draws);
      }
    } else {
      g.state := Quest.PortalEntered(state);
    }
  }

  /** The deferred action scheduled by portal entry: the cooldown goes off, whatever the state. */
  method ClearPortalCooldown(g: Session)
    modifies g`portalCooldown
    ensures !g.portalCooldown
  {
    g.portalCooldown := false;
  }
}
