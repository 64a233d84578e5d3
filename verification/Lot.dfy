/** Release of a share of the dead stack into the floating stack. */
module Lot {
  import opened Data

  datatype ReleaseResult = ReleaseResult(deadStack: real, floatStack: real, released: real)

  function ReleaseQty(deadStack: real, ratio: real): real {
    deadStack * ratio
  }

  function TryReleaseDeadToFloat(p: PortfolioState, spawn: SpawnPoint, price: real): ReleaseResult {
    var untouched := ReleaseResult(p.deadStack, p.floatStack, 0.0);
    if p.deadStack <= 0.0 || price <= 0.0 || p.navInitial <= 0.0 then untouched
    else if p.Roi(price) < spawn.roiReleaseTrigger then untouched
    else
      var qty := ReleaseQty(p.deadStack, spawn.releaseRatio);
      if qty <= 0.0 then untouched
      else ReleaseResult(p.deadStack - qty, p.floatStack + qty, qty)
  }

  /** A positive share of a positive stack; no more than the stack exactly up to ratio one. */
  lemma ReleaseShare(deadStack: real, ratio: real)
    requires deadStack > 0.0
    ensures ReleaseQty(deadStack, ratio) > 0.0 <==> ratio > 0.0
    ensures ReleaseQty(deadStack, ratio) <= deadStack <==> ratio <= 1.0
  {}

  /** A release moves, and neither makes nor loses. */
  lemma ReleaseMoves(p: PortfolioState, spawn: SpawnPoint, price: real)
    ensures var r := TryReleaseDeadToFloat(p, spawn, price);
      && r.deadStack == p.deadStack - r.released && r.floatStack == p.floatStack + r.released
      && (r.released == 0.0 || r.released == p.deadStack * spawn.releaseRatio)
  {}
}
