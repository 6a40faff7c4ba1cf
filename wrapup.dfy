/**
 * WrapUp.step: the end-of-step check that stops the simulation once no
 * agent is left strictly inside the world rectangle. The call to
 * state.kill() is the returned verdict.
 */
module Wrapup {
  import opened Geometry
  import opened Settings

  /** Strictly inside (0, worldX) x (0, worldY); the boundary counts as outside. */
  predicate Inside(p: Vec, worldX: real, worldY: real)
  {
    p.x > 0.0 && p.y > 0.0 && p.x < worldX && p.y < worldY
  }

  /** The loop over the agents: true at the first agent inside the world. */
  function AnyInside(positions: seq<Vec>, worldX: real, worldY: real): (r: bool)
    ensures r <==> exists i :: 0 <= i < |positions| && Inside(positions[i], worldX, worldY)
  {
    if positions == [] then false
    else Inside(positions[0], worldX, worldY) || AnyInside(positions[1..], worldX, worldY)
  }

  /**
   * Whether the step kills the simulation: with the lattice model on and
   * agents left in the lattice it returns early; otherwise it kills unless
   * some agent is strictly inside.
   */
  function ShouldKill(s: Settings, latticeEmpty: bool, positions: seq<Vec>, worldX: real, worldY: real): (r: bool)
    ensures r <==> !(s.latticeModel && !latticeEmpty)
                   && forall i :: 0 <= i < |positions| ==> !Inside(positions[i], worldX, worldY)
  {
    if s.latticeModel && !latticeEmpty then false
    else !AnyInside(positions, worldX, worldY)
  }
}
