/** Where the sources of a pass end up. */
module CompactionOrder {
  import opened Levels
  import opened CompactionPass
  import opened PassOrder

  /** What was held above its level stays so through the rest of a pass, and its own sources join. */
  lemma {:induction false} PassHolds(x: set<File>, u: set<File>, l: nat, ms: seq<File>, held: set<File>)
    requires l >= 1 && Agree(x, u, l) && StackedFrom(u, u, l - 1) && Chain(x, l, ms) && HeldAbove(held, u)
    ensures HeldAbove(held + Sources(u, ms), Updated(u, ms))
    decreases |ms|
  {
    if ms == [] {
      assert held + Sources(u, ms) == held;
    } else {
      var gone := Gone(u, ms[0]);
      NextTurn(x, u, u, l, ms[0]);
      MergeHolds(u, held, u, ms[0].level, ms[0]);
      PassHolds(x + {ms[0]}, After(u, ms[0]), ms[0].level + 1, ms[1..], held + gone);
      assert held + Sources(u, ms) == (held + gone) + Sources(After(u, ms[0]), ms[1..]);
    }
  }

  /** Every source of a pass ends up covered strictly above its own level. */
  lemma SourcesCoveredAbove(x: set<File>, threshold: nat, ms: seq<File>, f: File, t: nat)
    requires Stacked(x, x) && IsPass(x, threshold, 1, ms) && f in Sources(x, ms) && Has(f, t)
    ensures CoversFrom(Updated(x, ms), f.level + 1, t)
  {
    PassIsChain(x, threshold, 1, ms);
    PassHolds(x, x, 1, ms, {});
    assert f in {} + Sources(x, ms);
  }
}
