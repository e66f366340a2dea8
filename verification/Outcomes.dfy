// What an executed action has to have done: the link between the methods that issue calls
// and the records of runs the theorems are about.

module Outcomes {
  import opened Sorting
  import opened Server
  import opened Plans
  import Evolution
  import Ownership

  // "run" is a valid run of the action that leads from the first origin and instance to
  // the second, made exactly the calls by which the trace grew, and had this result.
  ghost predicate Outcome(act: Action, ctx: Context, run: ActionRun, err: bool, o0: Origin, s0: Instance,
                          t0: seq<Event>, o1: Origin, s1: Instance, t1: seq<Event>)
  {
    && ValidRun(ctx, run) && run.act == act && run.err == err
    && run.o0 == o0 && run.s0 == s0 && run.o1 == o1 && run.s1 == s1 && t1 == t0 + run.events
  }

  // The read at the head of an action failed: no other call, and an error.
  lemma ReadFails(act: Action, ctx: Context, o: Origin, s: Instance, t: seq<Event>, e: Event) returns (run: ActionRun)
    requires Typed(o) && Filed(s) && ReadOf(act, o).Some? && e.call == Get(ReadOf(act, o).value) && !e.Ok()
    ensures Outcome(act, ctx, run, true, o, s, t, o, s, t + [e])
  {
    run := ActionRun(act, o, s, [], [e], true, o, s);
    hide Typed, Filed, IsPlan;
    ReplayOne(s, [], e);
    assert [] + [e] == [e];
  }

  // The read succeeded, and a plan was executed.
  lemma ReadAndDo(act: Action, ctx: Context, o: Origin, s: Instance, t: seq<Event>, e: Event, plan: seq<Step>,
                  events: seq<Event>, err: bool, o1: Origin) returns (run: ActionRun)
    requires Typed(o) && Filed(s) && ReadOf(act, o).Some? && e.call == Get(ReadOf(act, o).value) && e.Ok()
    requires IsPlan(act, ctx, o, s, plan) && Executes(plan, events, err)
    requires o1 == OriginAfter(act, o, s, true)
    ensures Outcome(act, ctx, run, err, o, s, t, o1, Replay(s, events), t + [e] + events)
  {
    run := ActionRun(act, o, s, plan, [e] + events, err, o1, Replay(s, events));
    hide Typed, Filed, IsPlan, OriginAfter, Executes;
    ReplayConcat(s, [e], events);
    ReplayOne(s, [], e);
    assert [] + [e] == [e] && ([e] + events)[1..] == events && After(s, e) == s;
    assert t + [e] + events == t + ([e] + events);
  }

  // An action without a read.
  lemma JustDo(act: Action, ctx: Context, o: Origin, s: Instance, t: seq<Event>, plan: seq<Step>, events: seq<Event>,
               err: bool) returns (run: ActionRun)
    requires Typed(o) && Filed(s) && ReadOf(act, o).None?
    requires IsPlan(act, ctx, o, s, plan) && Executes(plan, events, err)
    ensures Outcome(act, ctx, run, err, o, s, t, OriginAfter(act, o, s, true), Replay(s, events), t + events)
  {
    run := ActionRun(act, o, s, plan, events, err, OriginAfter(act, o, s, true), Replay(s, events));
    hide Typed, Filed, IsPlan, OriginAfter, Executes;
    assert events[0..] == events;
  }

  // An outcome keeps what the next action needs.
  lemma OutcomeKeeps(act: Action, ctx: Context, run: ActionRun, err: bool, o0: Origin, s0: Instance, t0: seq<Event>,
                     o1: Origin, s1: Instance, t1: seq<Event>)
    requires Outcome(act, ctx, run, err, o0, s0, t0, o1, s1, t1)
    ensures Typed(o1) && Filed(s1)
  {
    hide Filed, Typed, IsPlan, Executes;
    Evolution.NamesStay(act, o0, s0, !ReadFailed(run));
    Ownership.RunKeepsFiled(ctx, run);
  }
}
