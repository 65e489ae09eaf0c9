/**
  A rollback or scaling call of the gateway, with the writes of others between its steps, is a run of the system in
  which any number of calls are interleaved; so what holds of all runs there is about the gateway's calls.
 */
module GatewayRefinement {
  import opened Wrappers
  import opened Json
  import opened ApiServer
  import opened K8sGateway
  import opened GatewayOutcome
  import opened GatewayRuns

  lemma {:induction false} Chain(h: Hash, name: string, s: Sys, step: Step, steps: seq<Step>)
    requires Enabled(s, step) && Feasible(h, name, Apply(h, name, s, step), steps)
    ensures Feasible(h, name, s, [step] + steps)
    ensures After(h, name, s, [step] + steps) == After(h, name, Apply(h, name, s, step), steps)
  {
    hide Enabled, Apply;
    assert ([step] + steps)[1..] == steps;
  }

  lemma {:induction false} RunThen(h: Hash, name: string, s: Sys, first: seq<Step>, rest: seq<Step>)
    requires Feasible(h, name, s, first) && Feasible(h, name, After(h, name, s, first), rest)
    ensures Feasible(h, name, s, first + rest)
    ensures After(h, name, s, first + rest) == After(h, name, After(h, name, s, first), rest)
    decreases |first|
  {
    hide Enabled, Apply;
    if first == [] {
      assert first + rest == rest;
    } else {
      assert (first + rest)[1..] == first[1..] + rest;
      RunThen(h, name, Apply(h, name, s, first[0]), first[1..], rest);
    }
  }

  function Outsides(ws: seq<Option<Value>>): seq<Step> {
    if ws == [] then [] else [Outside(ws[0])] + Outsides(ws[1..])
  }

  /** What others write in the meantime. */
  lemma {:induction false} OutsideRun(h: Hash, name: string, s: Sys, ws: seq<Option<Value>>)
    ensures Feasible(h, name, s, Outsides(ws))
    ensures var t := After(h, name, s, Outsides(ws)); t.history == Writes(s.history, ws) && t.calls == s.calls
    decreases |ws|
  {
    hide Write;
    if ws != [] {
      OutsideRun(h, name, Apply(h, name, s, Outside(ws[0])), ws[1..]);
      Chain(h, name, s, Outside(ws[0]), Outsides(ws[1..]));
    }
  }

  /** A call reads, decides by its listing and, if it decides to, sends its patch after the writes of others. */
  function CallSteps(h: Hash, name: string, s: Sys, work: Work, listing: Listing, ws: seq<Option<Value>>, fate: Fate)
    : seq<Step>
    requires Live(s.history).Some?
  {
    [Begin(work), Decide(|s.calls|, listing)]
    + if Decision(h, name, work, Live(s.history).value, listing).None? then []
      else Outsides(ws) + [Deliver(|s.calls|, fate)]
  }

  lemma {:induction false} CallRun(h: Hash, name: string, s: Sys, work: Work, listing: Listing, ws: seq<Option<Value>>,
      fate: Fate)
    requires Live(s.history).Some?
    ensures var steps := CallSteps(h, name, s, work, listing, ws, fate);
            var decision := Decision(h, name, work, Live(s.history).value, listing);
            Feasible(h, name, s, steps)
            && var t := After(h, name, s, steps);
               t.history == (if decision.None? then s.history
                             else Submit(Writes(s.history, ws), decision.value, fate).1)
               && |t.calls| == |s.calls| + 1 && t.calls[|s.calls|].work == work
               && (t.calls[|s.calls|].phase.Sent?
                   <==> decision.Some? && |t.history| != |Writes(s.history, ws)|)
               && (!t.calls[|s.calls|].phase.Sent? ==> t.calls[|s.calls|].phase.Over?)
  {
    hide Decision, Submit, Write;
    var n := |s.calls|;
    var decision := Decision(h, name, work, Live(s.history).value, listing);
    var s1 := Apply(h, name, s, Begin(work));
    var s2 := Apply(h, name, s1, Decide(n, listing));
    var rest := if decision.None? then [] else Outsides(ws) + [Deliver(n, fate)];
    if decision.Some? {
      OutsideRun(h, name, s2, ws);
      var s3 := After(h, name, s2, Outsides(ws));
      Chain(h, name, s3, Deliver(n, fate), []);
      assert [Deliver(n, fate)] + [] == [Deliver(n, fate)];
      RunThen(h, name, s2, Outsides(ws), [Deliver(n, fate)]);
    }
    Chain(h, name, s1, Decide(n, listing), rest);
    Chain(h, name, s, Begin(work), [Decide(n, listing)] + rest);
    assert [Begin(work)] + ([Decide(n, listing)] + rest) == [Begin(work), Decide(n, listing)] + rest;
  }

  /** A scaling call whose read succeeds is such a run: it leaves what the run leaves. */
  lemma {:induction false} ScaleIsARun(h: Hash, name: string, s: Sys, count: Count, o: Options, answer: HpaAnswer,
      beforePatch: seq<Option<Value>>, fate: Fate)
    requires Live(s.history).Some? && CountAllowed(count)
    ensures var steps := CallSteps(h, name, s, ScaleTo(count, o), Hpas(answer), beforePatch, fate);
            Feasible(h, name, s, steps)
            && After(h, name, s, steps).history == Scale(s.history, name, count, o, answer, None, beforePatch, fate).1
  {
    hide PlanScale, Submit, Writes;
    CallRun(h, name, s, ScaleTo(count, o), Hpas(answer), beforePatch, fate);
  }

  /** So is a rollback that reads and lists, with the writes of others before its verifying read at the end. */
  lemma {:induction false} RollbackIsARun(h: Hash, name: string, s: Sys, target: Option<int>, o: Options,
      env: Environment) returns (steps: seq<Step>)
    requires Live(s.history).Some? && env.read.None? && env.list.Ok?
    ensures Feasible(h, name, s, steps)
    ensures After(h, name, s, steps).history == Rollback(h, s.history, target, o, env).1
    ensures var t := After(h, name, s, steps);
            |t.calls| == |s.calls| + 1 && t.calls[|s.calls|].work == RollbackTo(target, o)
            && (Rollback(h, s.history, target, o, env).0.success ==> t.calls[|s.calls|].phase.Sent?)
  {
    hide PlanRollback, Preflight, Verified, Writes, ApplyPatch;
    var listing := ReplicaSets(env.list.value, env.clock, env.time);
    var work := RollbackTo(target, o);
    steps := CallSteps(h, name, s, work, listing, env.beforePatch, env.fate);
    CallRun(h, name, s, work, listing, env.beforePatch, env.fate);
    var t := After(h, name, s, steps);
    if Sends(h, s.history, target, o, env) {
      var plan := PlanRollback(h, Live(s.history).value, env.list.value, target, o, env.time);
      if Submit(Writes(s.history, env.beforePatch), plan.patch, env.fate).0.None? {
        OutsideRun(h, name, t, env.beforeVerify);
        RunThen(h, name, s, steps, Outsides(env.beforeVerify));
        steps := steps + Outsides(env.beforeVerify);
      }
    }
  }
}
