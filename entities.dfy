/**
 * The shared entity types of the game: points in space, the guide characters
 * (NPCs), the portal, the quest state record, the player mesh and the set of
 * mutable references the game component keeps between frames.
 */
module Entities {
  import opened Wrappers

  /** A point (or displacement) in world space. */
  datatype Vec3 = Vec3(x: real, y: real, z: real) {
    function Add(d: Vec3): (r: Vec3)
      ensures r.x - x == d.x && r.y - y == d.y && r.z - z == d.z
    {
      Vec3(x + d.x, y + d.y, z + d.z)
    }
  }

  /** Squared Euclidean distance; the program compares `distanceTo` with a radius. */
  function DistSq(a: Vec3, b: Vec3): (d: real)
    ensures d >= 0.0
    ensures a == b ==> d == 0.0
  {
    (a.x - b.x) * (a.x - b.x) + (a.y - b.y) * (a.y - b.y) + (a.z - b.z) * (a.z - b.z)
  }

  /**
   * A move by d lands exactly |d| away from where it started, and the
   * opposite move returns to the start: the rollback target is well defined.
   */
  lemma TranslationLength(p: Vec3, d: Vec3)
    ensures DistSq(p.Add(d), p) == DistSq(d, Vec3(0.0, 0.0, 0.0))
    ensures p.Add(d).Add(Vec3(-d.x, -d.y, -d.z)) == p
  {
  }

  /**
   * `a.distanceTo(b) < r`. A distance is never negative, so the test holds
   * exactly when r is positive and the squared distance is below r squared.
   */
  predicate CloserThan(a: Vec3, b: Vec3, r: real)
  {
    r > 0.0 && DistSq(a, b) < r * r
  }

  /** Which validator an NPC record carries. */
  datatype Validator =
    | QuestValidator(level: int)  // a level's validator, wrapped so that success completes the quest
    | FinalValidator              // the epilogue validator, which never passes

  /** A guide character as the game holds it once a level is loaded. */
  datatype Npc = Npc(
    name: string,
    position: Vec3,
    dialog1: string,
    dialog2: string,
    dialog3: string,
    completedDialog: string,
    objective: string,
    hint1: string,
    hint2: string,
    hint3: string,
    validator: Validator)

  /** The portal mesh, as far as the game logic reads it. */
  datatype Portal = Portal(position: Vec3, visible: bool)

  /** The single quest/dialog state record. */
  datatype GameState = GameState(
    currentLevel: int,
    questComplete: bool,
    showDialog: bool,
    showEditor: bool,
    currentNpc: Option<Npc>,
    portalActive: bool,
    showPortalHint: bool,
    canEnterPortal: bool,
    dialogStage: int,
    failureCount: int,
    objectiveRevealed: bool)

  /** The player mesh: a position updated in place, and a yaw angle. */
  class Player {
    var position: Vec3
    var yaw: real

    constructor (position: Vec3)
      ensures this.position == position && yaw == 0.0
    {
      this.position := position;
      yaw := 0.0;
    }
  }

  /**
   * The two copies of the game component: the modular one (src/games) and the
   * older monolithic one (src/components/Game.tsx).
   */
  datatype Variant = Modular | Monolithic

  /** The references the game component keeps across frames and handlers. */
  class Session {
    const variant: Variant
    var state: GameState
    var player: Player?
    var velocity: Vec3
    var grounded: bool
    var keys: set<string>
    var npcs: seq<Npc>
    var collidables: seq<Vec3>
    var portal: Option<Portal>
    var portalCooldown: bool
    var showPortalHintRef: bool
    var canEnterPortalRef: bool

    constructor (variant: Variant, initial: GameState)
      ensures this.variant == variant && state == initial
      ensures player == null && portal == None
      ensures velocity == Vec3(0.0, 0.0, 0.0) && grounded
      ensures keys == {} && npcs == [] && collidables == []
      ensures !portalCooldown && !showPortalHintRef && !canEnterPortalRef
    {
      this.variant := variant;
      state := initial;
      player := null;
      velocity := Vec3(0.0, 0.0, 0.0);
      grounded := true;
      keys := {};
      npcs := [];
      collidables := [];
      portal := None;
      portalCooldown := false;
      showPortalHintRef := false;
      canEnterPortalRef := false;
    }
  }
}
