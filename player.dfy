/**
 * The player tick: turning, moving in the facing direction with collision
 * rollback, gravity, the ground clamp and the square boundary.
 */
module PlayerController {
  import opened Entities
  import Collision

  const MoveSpeed: real := 0.1
  const RotateSpeed: real := 0.05
  const GravityStep: real := 0.01
  const GroundLevel: real := 1.0
  const Boundary: real := 20.0
  const JumpStrength: real := 0.25

  /** The yaw change for the held keys: 'a' turns left, 'd' turns right. */
  function TurnDelta(keys: set<string>): (d: real)
    ensures ("a" in keys <==> "d" in keys) ==> d == 0.0
    ensures "a" in keys && "d" !in keys ==> d == RotateSpeed
    ensures "d" in keys && "a" !in keys ==> d == -RotateSpeed
  {
    (if "a" in keys then RotateSpeed else 0.0) - (if "d" in keys then RotateSpeed else 0.0)
  }

  /** The displacement in the player's own frame: 'w' forward at full speed, 's' back at half speed. */
  function LocalDirection(keys: set<string>): (d: Vec3)
    ensures d.x == 0.0 && d.y == 0.0
    ensures d.z == (if "w" in keys then -MoveSpeed else 0.0) + (if "s" in keys then MoveSpeed / 2.0 else 0.0)
  {
    var dz := 0.0;
    var dz := if "w" in keys then dz - MoveSpeed else dz;
    var dz := if "s" in keys then dz + MoveSpeed * 0.5 else dz;
    Vec3(0.0, 0.0, dz)
  }

  /**
   * The cosine and sine of the player's yaw. The trigonometry is not
   * modelled: a heading is supplied with each tick.
   */
  datatype Heading = Heading(cos: real, sin: real)

  predicate UnitHeading(h: Heading)
  {
    -1.0 <= h.cos <= 1.0 && -1.0 <= h.sin <= 1.0 && h.cos * h.cos + h.sin * h.sin == 1.0
  }

  /** `applyEuler` with the Euler angles (0, yaw, 0): a turn about the vertical axis. */
  function Rotate(local: Vec3, h: Heading): (w: Vec3)
    ensures w.y == local.y
    ensures UnitHeading(h) ==> w.x * w.x + w.z * w.z == local.x * local.x + local.z * local.z
  {
    var w := Vec3(local.x * h.cos + local.z * h.sin, local.y, -local.x * h.sin + local.z * h.cos);
    if UnitHeading(h) then RotationKeepsLength(local.x, local.z, h.cos, h.sin); w else w
  }

  /** Turning (x, z) by an angle with cosine c and sine s keeps its length. */
  lemma RotationKeepsLength(x: real, z: real, c: real, s: real)
    requires c * c + s * s == 1.0
    ensures (x * c + z * s) * (x * c + z * s) + (-x * s + z * c) * (-x * s + z * c) == x * x + z * z
  {
    calc {
      (x * c + z * s) * (x * c + z * s) + (-x * s + z * c) * (-x * s + z * c);
      x * x * (c * c) + 2.0 * (x * z) * (c * s) + z * z * (s * s)
        + (x * x * (s * s) - 2.0 * (x * z) * (c * s) + z * z * (c * c));
      x * x * (c * c + s * s) + z * z * (c * c + s * s);
      x * x + z * z;
    }
  }

  /** `Math.max(-20, Math.min(20, v))`. */
  function Clamp(v: real): (r: real)
    ensures -Boundary <= r <= Boundary
    ensures -Boundary <= v <= Boundary ==> r == v
    ensures v > Boundary ==> r == Boundary
    ensures v < -Boundary ==> r == -Boundary
  {
    var m := if Boundary < v then Boundary else v;
    if -Boundary > m then -Boundary else m
  }

  /** The state one tick reads and writes. */
  datatype Motion = Motion(position: Vec3, yaw: real, velocityY: real, grounded: bool)

  /** Standing on the ground: grounded, at ground height, not moving vertically. */
  predicate Settled(m: Motion)
  {
    m.grounded ==> m.position.y == GroundLevel && m.velocityY == 0.0
  }

  /** The vertical velocity after gravity: only an airborne player falls faster. */
  function FallVelocity(m: Motion): (v: real)
    ensures m.grounded ==> v == m.velocityY
    ensures !m.grounded ==> v == m.velocityY - GravityStep
    ensures v <= m.velocityY && (v == m.velocityY <==> m.grounded)
  {
    if m.grounded then m.velocityY else m.velocityY - GravityStep
  }

  /** The displacement of the held keys in world space, for the player's new heading. */
  function WorldStep(keys: set<string>, heading: Heading): (w: Vec3)
    ensures w.y == 0.0
    ensures "w" !in keys && "s" !in keys ==> w.x == 0.0 && w.z == 0.0
  {
    Rotate(LocalDirection(keys), heading)
  }

  /**
   * One tick. The horizontal move is accepted or rolled back first; the
   * vertical step is applied afterwards and is never rolled back.
   */
  function Tick(m: Motion, keys: set<string>, heading: Heading, collidables: seq<Vec3>, npcs: seq<Npc>): (r: Motion)
    ensures r.yaw == m.yaw + TurnDelta(keys)
    ensures r.position.y >= GroundLevel
    ensures -Boundary <= r.position.x <= Boundary && -Boundary <= r.position.z <= Boundary
    ensures var moved := Collision.Resolved(m.position.Add(WorldStep(keys, heading)), m.position, collidables, npcs);
      r.position.x == Clamp(moved.x) && r.position.z == Clamp(moved.z)
    ensures var y := m.position.y + FallVelocity(m);
      if y <= GroundLevel then r.position.y == GroundLevel && r.velocityY == 0.0 && r.grounded
      else r.position.y == y && r.velocityY == FallVelocity(m) && r.grounded == m.grounded
    ensures Settled(m) ==> Settled(r)
  {
    var yaw := m.yaw + TurnDelta(keys);
    var moved := Collision.Resolved(m.position.Add(WorldStep(keys, heading)), m.position, collidables, npcs);
    var vy := FallVelocity(m);
    var y := moved.y + vy;
    if y <= GroundLevel then
      Motion(Vec3(Clamp(moved.x), GroundLevel, Clamp(moved.z)), yaw, 0.0, true)
    else
      Motion(Vec3(Clamp(moved.x), y, Clamp(moved.z)), yaw, vy, m.grounded)
  }

  /**
   * A blocked move leaves the player exactly where it stood horizontally
   * (inside the boundary); a free move inside the boundary is taken in full.
   */
  lemma RollbackIsExact(m: Motion, keys: set<string>, heading: Heading, collidables: seq<Vec3>, npcs: seq<Npc>)
    requires -Boundary <= m.position.x <= Boundary && -Boundary <= m.position.z <= Boundary
    ensures var r := Tick(m, keys, heading, collidables, npcs);
      var candidate := m.position.Add(WorldStep(keys, heading));
      && (Collision.Blocked(candidate, collidables, npcs) ==>
            r.position.x == m.position.x && r.position.z == m.position.z)
      && (!Collision.Blocked(candidate, collidables, npcs)
          && -Boundary <= candidate.x <= Boundary && -Boundary <= candidate.z <= Boundary ==>
            r.position.x == candidate.x && r.position.z == candidate.z)
  {
  }

  function Abs(a: real): (r: real)
    ensures r >= 0.0 && (r == a || r == -a)
  {
    if a < 0.0 then -a else a
  }

  /**
   * With a unit heading, a tick moves the player by at most the move speed
   * along each horizontal axis, and not at all with neither 'w' nor 's'
   * held.
   */
  lemma StepIsShort(m: Motion, keys: set<string>, heading: Heading, collidables: seq<Vec3>, npcs: seq<Npc>)
    requires UnitHeading(heading)
    requires -Boundary <= m.position.x <= Boundary && -Boundary <= m.position.z <= Boundary
    ensures var r := Tick(m, keys, heading, collidables, npcs);
      && Abs(r.position.x - m.position.x) <= MoveSpeed
      && Abs(r.position.z - m.position.z) <= MoveSpeed
      && ("w" !in keys && "s" !in keys ==> r.position.x == m.position.x && r.position.z == m.position.z)
  {
    var p := m.position;
    var step := WorldStep(keys, heading);
    var z := LocalDirection(keys).z;
    assert Abs(z) <= MoveSpeed;
    assert step.x == z * heading.sin && step.z == z * heading.cos;
    ScaledBound(z, heading.sin);
    ScaledBound(z, heading.cos);
    var moved := Collision.Resolved(p.Add(step), p, collidables, npcs);
    assert moved == p.Add(step) || moved == p;
    ClampShrinks(p.x, moved.x);
    ClampShrinks(p.z, moved.z);
  }

  /** Scaling by a factor in [-1, 1] does not lengthen. */
  lemma ScaledBound(z: real, f: real)
    requires -1.0 <= f <= 1.0
    ensures Abs(z * f) <= Abs(z)
  {
    if f >= 0.0 {
      ScaledBoundNonNegative(z, f);
    } else {
      ScaledBoundNonNegative(z, -f);
      assert z * (-f) == -(z * f);
    }
  }

  lemma ScaledBoundNonNegative(z: real, f: real)
    requires 0.0 <= f <= 1.0
    ensures Abs(z * f) <= Abs(z)
  {
    if z >= 0.0 {
      ProductBound(z, f);
    } else {
      ScaledBoundNegative(z, f);
    }
  }

  lemma ScaledBoundNegative(z: real, f: real)
    requires z < 0.0 && 0.0 <= f <= 1.0
    ensures Abs(z * f) <= Abs(z)
  {
    var p := z * f;
    ProductBound(-z, f);
    assert (-z) * f == -p;
    assert z <= p <= 0.0;
  }

  lemma ProductBound(a: real, b: real)
    requires a >= 0.0 && 0.0 <= b <= 1.0
    ensures 0.0 <= a * b <= a
  {
  }

  /** Clamping moves a point no farther from a point inside the boundary. */
  lemma ClampShrinks(inside: real, v: real)
    requires -Boundary <= inside <= Boundary
    ensures Abs(Clamp(v) - inside) <= Abs(v - inside)
  {
  }

  /**
   * One frame of movement for the session's player, step by step as the
   * tick does it; with no player nothing happens. `heading` is the cosine
   * and sine of the yaw after this frame's turn.
   */
  method UpdatePlayer(g: Session, heading: Heading)
    modifies g.player, g`velocity, g`grounded
    ensures g.player == old(g.player)
    ensures old(g.player) == null ==> g.velocity == old(g.velocity) && g.grounded == old(g.grounded)
    ensures g.player != null ==>
      var before := Motion(old(g.player.position), old(g.player.yaw), old(g.velocity.y), old(g.grounded));
      && Motion(g.player.position, g.player.yaw, g.velocity.y, g.grounded)
           == Tick(before, old(g.keys), heading, old(g.collidables), old(g.npcs))
      && g.velocity.x == old(g.velocity.x) && g.velocity.z == old(g.velocity.z)
  {
    var player := g.player;
    if player == null {
      return;
    }
    if "a" in g.keys {
      player.yaw := player.yaw + RotateSpeed;
    }
    if "d" in g.keys {
      player.yaw := player.yaw - RotateSpeed;
    }
    var direction := Vec3(0.0, 0.0, 0.0);
    if "w" in g.keys {
      direction := direction.(z := direction.z - MoveSpeed);
    }
    if "s" in g.keys {
      direction := direction.(z := direction.z + MoveSpeed * 0.5);
    }
    direction := Rotate(direction, heading);
    var original := player.position;
    player.position := player.position.Add(direction);
    Collision.ResolvePlayerCollisions(player, original, g.collidables, g.npcs);
    if !g.grounded {
      g.velocity := g.velocity.(y := g.velocity.y - GravityStep);
    }
    player.position := player.position.(y := player.position.y + g.velocity.y);
    if player.position.y <= GroundLevel {
      player.position := player.position.(y := GroundLevel);
      g.velocity := g.velocity.(y := 0.0);
      g.grounded := true;
    }
    player.position := player.position.(x := Clamp(player.position.x));
    player.position := player.position.(z := Clamp(player.position.z));
  }
}
