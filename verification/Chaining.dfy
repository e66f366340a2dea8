// Growing the record of a replica's part of a run, action by action.

module Chaining {
  import opened Sorting
  import opened Values
  import opened Server
  import opened Plans
  import opened Syncing
  import opened Outcomes
  import Convergence
  import NeverStale
  import Ownership

  // The first n actions have been executed: "runs" records them, the origin in memory,
  // the replica and the trace are where they left them, and the loop goes on.
  ghost predicate SoFar(ctx: Context, acts: seq<Action>, n: nat, o0: Origin, s0: Instance, t0: seq<Event>,
                        runs: seq<ActionRun>, withError: bool, o: Origin, s: Instance, t: seq<Event>)
  {
    && |runs| == n <= |acts| && Chained(ctx, o0, s0, runs)
    && (forall i | 0 <= i < n :: runs[i].act == acts[i])
    && (withError <==> exists i :: 0 <= i < n && runs[i].err)
    && (withError ==> ctx.continueOnError)
    && o == OriginBefore(o0, runs, n) && s == StateBefore(s0, runs, n) && t == t0 + EventsUpTo(runs, n)
  }

  // The loop has ended.
  ghost predicate Ended(ctx: Context, acts: seq<Action>, o0: Origin, s0: Instance, t0: seq<Event>, runs: seq<ActionRun>,
                        ok: bool, o: Origin, s: Instance, t: seq<Event>)
  {
    && Chained(ctx, o0, s0, runs) && Disciplined(ctx.continueOnError, acts, runs, ok)
    && o == OriginBefore(o0, runs, |runs|) && s == StateBefore(s0, runs, |runs|) && t == t0 + EventsUpTo(runs, |runs|)
  }

  lemma {:induction false} EventsOfPrefix(runs: seq<ActionRun>, more: seq<ActionRun>, n: nat)
    requires n <= |runs|
    ensures EventsUpTo(runs + more, n) == EventsUpTo(runs, n)
  {
    if n > 0 { EventsOfPrefix(runs, more, n - 1); }
  }

  lemma NoRuns(ctx: Context, acts: seq<Action>, o: Origin, s: Instance, t: seq<Event>)
    ensures SoFar(ctx, acts, 0, o, s, t, [], false, o, s, t)
  {}

  lemma BeforeOfPrefix(o0: Origin, s0: Instance, runs: seq<ActionRun>, more: seq<ActionRun>, n: nat)
    requires n <= |runs|
    ensures OriginBefore(o0, runs + more, n) == OriginBefore(o0, runs, n)
    ensures StateBefore(s0, runs + more, n) == StateBefore(s0, runs, n)
  {}

  lemma ChainGrows(ctx: Context, o0: Origin, s0: Instance, runs: seq<ActionRun>, run: ActionRun)
    requires Chained(ctx, o0, s0, runs) && ValidRun(ctx, run)
    requires run.o0 == OriginBefore(o0, runs, |runs|) && run.s0 == StateBefore(s0, runs, |runs|)
    ensures Chained(ctx, o0, s0, runs + [run])
    ensures OriginBefore(o0, runs + [run], |runs| + 1) == run.o1 && StateBefore(s0, runs + [run], |runs| + 1) == run.s1
  {
    hide ValidRun, EventsUpTo;
    var longer := runs + [run];
    forall i | 0 <= i < |longer|
      ensures ValidRun(ctx, longer[i]) && longer[i].o0 == OriginBefore(o0, longer, i)
      ensures longer[i].s0 == StateBefore(s0, longer, i)
    {
      BeforeOfPrefix(o0, s0, runs, [run], i);
      if i < |runs| { assert longer[i] == runs[i]; }
    }
  }

  lemma NextRun(ctx: Context, acts: seq<Action>, n: nat, o0: Origin, s0: Instance, t0: seq<Event>, runs: seq<ActionRun>,
                withError: bool, o: Origin, s: Instance, t: seq<Event>, run: ActionRun, err: bool, o': Origin,
      s': Instance, t': seq<Event>)
    requires SoFar(ctx, acts, n, o0, s0, t0, runs, withError, o, s, t) && n < |acts|
    requires Outcome(acts[n], ctx, run, err, o, s, t, o', s', t')
    ensures !err || ctx.continueOnError ==>
              SoFar(ctx, acts, n + 1, o0, s0, t0, runs + [run], withError || err, o', s', t')
    ensures err && !ctx.continueOnError ==> Ended(ctx, acts, o0, s0, t0, runs + [run], false, o', s', t')
  {
    hide ValidRun, Chained;
    ChainGrows(ctx, o0, s0, runs, run);
    EventsOfPrefix(runs, [run], |runs|);
    var longer := runs + [run];
    assert forall i | 0 <= i < n :: longer[i] == runs[i];
    assert longer[n] == run;
    assert t0 + EventsUpTo(runs, n) + run.events == t0 + (EventsUpTo(runs, n) + run.events);
  }

  lemma AllRun(ctx: Context, acts: seq<Action>, o0: Origin, s0: Instance, t0: seq<Event>, runs: seq<ActionRun>,
               withError: bool, o: Origin, s: Instance, t: seq<Event>)
    requires SoFar(ctx, acts, |acts|, o0, s0, t0, runs, withError, o, s, t)
    ensures Ended(ctx, acts, o0, s0, t0, runs, !withError, o, s, t)
  {
    hide Chained;
  }

  // The DNS lists of a replica stay sortable: only the origin's are written.
  lemma DnsStaysSortable(ctx: Context, run: ActionRun)
    requires ValidRun(ctx, run) && Sortable(run.s0.ReadDns())
    requires run.act.DnsAction? ==> Sortable(run.o0.settings.dns)
    ensures Sortable(run.s1.ReadDns())
  {
    if run.act.DnsAction? {
      DnsWritten(ctx, run);
    } else {
      Ownership.OnlyTheOwnerChanges(ctx, run, DnsAction);
    }
  }

  lemma DnsWritten(ctx: Context, run: ActionRun)
    requires ValidRun(ctx, run) && run.act.DnsAction?
    ensures run.s1.settings.dns == run.s0.settings.dns
            || run.s1.settings.dns == run.o0.settings.dns.(protection := None)
  {
    var n := Reads(run.act, run.o0);
    if ReadFailed(run) {
      Convergence.OneRead(run.s0, run.events);
    } else {
      NeverStale.AfterRead(run.s0, run.events, n, |run.events|);
      var events := run.events[n..];
      assert run.events[..|run.events|] == run.events && events[..|events|] == events;
      ExecutesCalls(run.plan, events, run.err);
      if events != [] {
        assert events == [] + [events[0]];
        ReplayOne(run.s0, [], events[0]);
      }
    }
  }
}
