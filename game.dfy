/**
 * The game component's own event handlers: key presses and releases, the
 * per-frame update, the portal's visibility following its activation, and
 * mounting. Both copies of the component handle keys and frames the same
 * way; the session's variant picks which tick and which level load run.
 */
module Game {
  import opened Wrappers
  import opened Entities
  import Quest
  import World
  import PlayerController
  import Monolithic
  import Interaction

  /** A character folded to lower case; only the ASCII letters are folded. */
  function LowerChar(c: char): (r: char)
    ensures !('A' <= r <= 'Z')
    ensures !('A' <= c <= 'Z') ==> r == c
    ensures 'A' <= c <= 'Z' ==> 'a' <= r <= 'z' && r as int - 'a' as int == c as int - 'A' as int
  {
    if 'A' <= c <= 'Z' then (c as int - 'A' as int + 'a' as int) as char else c
  }

  /** A key name folded to lower case, character by character. */
  function Lower(s: string): (r: string)
    ensures |r| == |s|
    ensures forall i :: 0 <= i < |s| ==> r[i] == LowerChar(s[i])
    decreases |s|
  {
    if |s| == 0 then "" else Lower(s[..|s| - 1]) + [LowerChar(s[|s| - 1])]
  }

  /** Folding twice is folding once. */
  lemma LowerIdempotent(s: string)
    ensures Lower(Lower(s)) == Lower(s)
  {
    assert forall i :: 0 <= i < |s| ==> Lower(Lower(s))[i] == Lower(s)[i];
  }

  /** The interact key works with or without shift; the portal key folds to a name that is not it. */
  lemma InteractKeyNames()
    ensures Lower("e") == "e" && Lower("E") == "e"
    ensures Lower("Enter") == "enter" && Lower(" ") == " "
  {
    assert Lower("E")[0] == 'e';
    assert Lower("Enter")[0] == 'e';
  }

  /** Whether either panel is showing; both the interact key and the tick wait while one is. */
  predicate PanelShown(s: GameState)
  {
    s.showDialog || s.showEditor
  }

  /** Whether the portal key may start an entry: both mirror references set and the cooldown off. */
  predicate PortalKeyArmed(g: Session)
    reads g
  {
    g.showPortalHintRef && g.canEnterPortalRef && !g.portalCooldown
  }

  /**
   * A key press. The folded key name is marked as held. The space bar
   * jumps when the player is grounded. The interact key, in either case,
   * talks to the nearest NPC when no panel is showing. The portal key
   * enters the portal when the mirror references allow it and the
   * cooldown is off. The next level's obstacles and spawn draws are inputs.
   */
  method KeyDown(g: Session, key: string, environment: seq<Vec3>, draws: seq<(real, real)>)
    requires g.state.currentLevel >= 0 && World.SpawnAttempts <= |draws|
    modifies g`keys, g`velocity, g`grounded, g`state, g`portalCooldown, g`npcs, g`collidables, g`portal, g.player
    ensures g.keys == old(g.keys) + {Lower(key)}
    ensures g.player == old(g.player)
    ensures key == " " && old(g.grounded) ==>
      g.velocity == old(g.velocity).(y := PlayerController.JumpStrength) && !g.grounded
    ensures !(key == " " && old(g.grounded)) && !(key == "Enter" && old(PortalKeyArmed(g) && g.state.canEnterPortal)) ==>
      g.velocity == old(g.velocity) && g.grounded == old(g.grounded)
    ensures Lower(key) == "e" && !PanelShown(old(g.state)) && g.player != null ==>
      match Interaction.FirstInReach(g.npcs, g.player.position, 0)
      case None => g.state == old(g.state)
      case Some(i) => g.state == Quest.Converse(old(g.state), g.npcs[i])
    ensures Lower(key) != "e" && !(key == "Enter" && old(PortalKeyArmed(g) && g.state.canEnterPortal)) ==>
      g.state == old(g.state)
    ensures Lower(key) == "e" && (PanelShown(old(g.state)) || g.player == null) ==>
      g.state == old(g.state)
    ensures key == "Enter" && old(PortalKeyArmed(g) && g.state.canEnterPortal) ==>
      g.portalCooldown && g.state == Quest.PortalEntered(old(g.state))
    ensures key == "Enter" && old(PortalKeyArmed(g) && g.state.canEnterPortal) && old(g.state).currentLevel < 5 ==>
      && g.npcs == [World.LevelNpc(old(g.state).currentLevel + 1)]
      && g.collidables == environment
      && g.portal == Some(Portal(World.PortalPosition, false))
      && (g.player != null ==>
            && g.player.position == World.SpawnPosition(draws, World.NpcAnchor(old(g.state).currentLevel + 1), environment, World.NpcClearance)
            && g.player.yaw == old(g.player.yaw))
      && (g.variant == Modular || g.player == null ==> g.velocity == old(g.velocity) && g.grounded == old(g.grounded))
      && (g.variant == Monolithic && g.player != null ==> g.velocity == Vec3(0.0, 0.0, 0.0) && g.grounded)
    ensures key == "Enter" && old(PortalKeyArmed(g) && g.state.canEnterPortal) && old(g.state).currentLevel >= 5 ==>
      && g.npcs == old(g.npcs) && g.collidables == old(g.collidables) && g.portal == old(g.portal)
      && (g.player != null ==> unchanged(g.player))
      && g.velocity == old(g.velocity) && g.grounded == old(g.grounded)
    ensures !(key == "Enter" && old(PortalKeyArmed(g) && g.state.canEnterPortal)) ==>
      && g.portalCooldown == old(g.portalCooldown)
      && g.npcs == old(g.npcs) && g.collidables == old(g.collidables) && g.portal == old(g.portal)
      && (g.player != null ==> unchanged(g.player))
  {
    var state := g.state;
    g.keys := g.keys + {Lower(key)};
    if key == " " && g.grounded {
      g.velocity := g.velocity.(y := PlayerController.JumpStrength);
      g.grounded := false;
    }
    if Lower(key) == "e" && !state.showDialog && !state.showEditor {
      Interaction.HandleInteraction(g);
    }
    if key == "Enter" && g.showPortalHintRef && g.canEnterPortalRef && !g.portalCooldown {
      Interaction.HandlePortalEntry(g, environment, draws);
    }
  }

  /** A key release: the folded key name is no longer held. */
  method KeyUp(g: Session, key: string)
    modifies g`keys
    ensures g.keys == old(g.keys) - {Lower(key)}
  {
    g.keys := g.keys - {Lower(key)};
  }

  /**
   * One animation frame. The player moves only when no panel is showing
   * (by the tick of the session's copy of the game); then the portal
   * proximity check runs at the player's new position.
   */
  method Frame(g: Session, heading: PlayerController.Heading)
    modifies g.player, g`velocity, g`grounded, g`state, g`showPortalHintRef, g`canEnterPortalRef
    ensures g.player == old(g.player)
    ensures PanelShown(old(g.state)) && g.player != null ==> unchanged(g.player)
    ensures PanelShown(old(g.state)) || g.player == null ==>
      g.velocity == old(g.velocity) && g.grounded == old(g.grounded)
    ensures !PanelShown(old(g.state)) && g.player != null ==>
      var before := PlayerController.Motion(old(g.player.position), old(g.player.yaw), old(g.velocity.y), old(g.grounded));
      && PlayerController.Motion(g.player.position, g.player.yaw, g.velocity.y, g.grounded)
           == PlayerController.Tick(before, old(g.keys), heading, old(g.collidables), old(g.npcs))
      && g.velocity.x == old(g.velocity.x) && g.velocity.z == old(g.velocity.z)
    ensures g.player == null ==> g.state == old(g.state)
    ensures g.player != null ==>
      var on := Interaction.PortalInReach(g.player.position, g.portal, old(g.state).portalActive);
      && g.showPortalHintRef == on && g.canEnterPortalRef == on
      && g.state == Quest.PortalFlags(old(g.state), on)
    ensures Quest.Valid(old(g.state)) ==> Quest.Valid(g.state)
  {
    var state := g.state;
    if !state.showDialog && !state.showEditor {
      if g.variant == Modular {
        PlayerController.UpdatePlayer(g, heading);
      } else {
        Monolithic.UpdatePlayer(g, heading);
      }
    }
    Interaction.CheckInteractions(g);
  }

  /** The effect run when the portal's activation changes: the portal is shown exactly when active. */
  method SyncPortalVisibility(g: Session)
    modifies g`portal
    ensures old(g.portal).None? ==> g.portal == None
    ensures old(g.portal).Some? ==>
      g.portal == Some(old(g.portal).value.(visible := g.state.portalActive))
  {
    if g.portal.Some? {
      g.portal := Some(g.portal.value.(visible := g.state.portalActive));
    }
  }

  /** The player's position before the first level is loaded. */
  const StartPosition := Vec3(0.0, 1.0, 0.0)

  /**
   * Mounting the component: a session with the initial state and a player
   * at the start position, on which the first level is loaded.
   */
  method Mount(variant: Variant, environment: seq<Vec3>, draws: seq<(real, real)>) returns (g: Session)
    requires World.SpawnAttempts <= |draws|
    ensures fresh(g) && g.variant == variant && g.state == Quest.InitialState()
    ensures g.player != null && fresh(g.player) && g.player.yaw == 0.0
    ensures g.player.position == World.SpawnPosition(draws, World.NpcAnchor(1), environment, World.NpcClearance)
    ensures g.npcs == [World.LevelNpc(1)] && g.collidables == environment
    ensures g.portal == Some(Portal(World.PortalPosition, false))
    ensures g.velocity == Vec3(0.0, 0.0, 0.0) && g.grounded && g.keys == {}
    ensures !g.portalCooldown && !g.showPortalHintRef && !g.canEnterPortalRef
  {
    g := new Session(variant, Quest.InitialState());
    var player := new Player(StartPosition);
    g.player := player;
    if variant == Modular {
      World.LoadLevel(g, 1, environment, draws);
    } else {
      Monolithic.LoadLevel(g, 1, environment, draws);
    }
  }
}
