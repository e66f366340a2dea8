// Exactly when no call of an action can ever be stale.

module Freshness {
  import opened Server
  import opened Plans
  import opened NeverStale
  import opened Repeats
  import opened Existence

  // Whatever fails, every call fits the difference in the state in which it is made.
  ghost predicate AlwaysFresh(act: Action, ctx: Context, o: Origin, s: Instance)
  {
    forall run: ActionRun :: IsRunOf(act, ctx, o, s, run) ==> FitsThroughout(o, s, run.events)
  }

  ghost predicate IsRunOf(act: Action, ctx: Context, o: Origin, s: Instance, run: ActionRun)
  {
    ValidRun(ctx, run) && run.act == act && run.o0 == o && run.s0 == s
  }

  // Seen before the call: if and only if the origin repeats no key in the lists the action
  // merges in slice order.
  lemma AlwaysFreshExactly(act: Action, ctx: Context, o: Origin, s: Instance)
    requires Typed(o) && Filed(s)
    ensures AlwaysFresh(act, ctx, o, s) <==> CleanFor(act, o)
  {
    hide ValidRun, CleanFor, FitsThroughout, Typed, Filed;
    if CleanFor(act, o) {
      forall run: ActionRun | IsRunOf(act, ctx, o, s, run) ensures FitsThroughout(o, s, run.events) {
        NoCallIsStale(ctx, run);
      }
    }
    if AlwaysFresh(act, ctx, o, s) {
      var run, t := ErrorFreeRunExists(act, ctx, o, s, [], false);
      assert IsRunOf(act, ctx, o, s, run);
      StaleExactlyWithRepeats(ctx, run);
    }
  }
}
