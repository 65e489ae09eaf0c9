/**
  Any number of rollback and scaling calls on one Deployment, interleaved step by step with each
  other and with other writers.
 */
module GatewayRuns {
  import opened Wrappers
  import opened Json
  import Text
  import opened ApiServer
  import opened PodTemplate
  import opened K8sGateway
  import opened GatewayOutcome

  /** What a call was asked to do. */
  datatype Work =
    | RollbackTo(target: Option<int>, options: Options)
    | ScaleTo(count: Count, options: Options)

  /** What its listing answered, after the read; `clock` and `time` belong to a rollback. */
  datatype Listing = ReplicaSets(list: seq<Value>, clock: int, time: string) | Hpas(answer: HpaAnswer)

  datatype Phase =
    | Reading                                      // the Deployment has been read
    | Ready(listing: Listing, patch: seq<Op>)      // the patch is decided
    | Sent(listing: Listing, patch: seq<Op>)       // and stored
    | Over

  /** `readAt` is the position of the object that the call read. */
  datatype Call = Call(work: Work, readAt: nat, seen: Value, phase: Phase)

  /** `writers[n]` is the call that made write `n`, if it was a call. */
  datatype Sys = Sys(history: History, calls: seq<Call>, writers: seq<Option<nat>>)

  datatype Step =
    | Outside(write: Option<Value>)
    | Begin(work: Work)
    | Decide(call: nat, listing: Listing)
    | Deliver(call: nat, fate: Fate)
    | Crash(call: nat)

  /** The patch a call decides on, if it decides to send one. */
  function Decision(h: Hash, name: string, work: Work, d: Value, listing: Listing): Option<seq<Op>> {
    match (work, listing)
    case (RollbackTo(target, o), ReplicaSets(list, clock, time)) =>
      if Preflight(d, o, clock).Some? then None
      else
        var plan := PlanRollback(h, d, list, target, o, time);
        if plan.Send? then Some(plan.patch) else None
    case (ScaleTo(count, o), Hpas(answer)) =>
      var plan := PlanScale(d, name, count, o, answer);
      if plan.SendScale? then Some(plan.patch) else None
    case _ => None
  }

  predicate Enabled(s: Sys, step: Step) {
    match step
    case Outside(_) => true
    case Begin(_) => Live(s.history).Some?
    case Decide(i, _) => i < |s.calls| && s.calls[i].phase.Reading?
    case Deliver(i, _) => i < |s.calls| && s.calls[i].phase.Ready?
    case Crash(i) => i < |s.calls| && !s.calls[i].phase.Sent?
  }

  /** The writers after a write by `by` that was stored or turned down. */
  function Marked(before: History, after: History, writers: seq<Option<nat>>, who: Option<nat>): seq<Option<nat>> {
    if |after| == |before| then writers else writers + [who]
  }

  function Apply(h: Hash, name: string, s: Sys, step: Step): Sys
    requires Enabled(s, step)
  {
    match step
    case Outside(w) =>
      var after := Write(s.history, w);
      Sys(after, s.calls, Marked(s.history, after, s.writers, None))
    case Begin(work) => s.(calls := s.calls + [Call(work, |s.history| - 1, Live(s.history).value, Reading)])
    case Decide(i, listing) =>
      var c := s.calls[i];
      var decision := Decision(h, name, c.work, c.seen, listing);
      s.(calls := s.calls[i := c.(phase := if decision.Some? then Ready(listing, decision.value) else Over)])
    case Deliver(i, fate) =>
      var c := s.calls[i];
      var after := Submit(s.history, c.phase.patch, fate).1;
      var phase := if |after| == |s.history| then Over else Sent(c.phase.listing, c.phase.patch);
      Sys(after, s.calls[i := c.(phase := phase)], Marked(s.history, after, s.writers, Some(i)))
    case Crash(i) => s.(calls := s.calls[i := s.calls[i].(phase := Over)])
  }

  predicate Feasible(h: Hash, name: string, s: Sys, steps: seq<Step>)
    decreases |steps|
  {
    steps == [] || (Enabled(s, steps[0]) && Feasible(h, name, Apply(h, name, s, steps[0]), steps[1..]))
  }

  function After(h: Hash, name: string, s: Sys, steps: seq<Step>): Sys
    requires Feasible(h, name, s, steps)
    decreases |steps|
  {
    if steps == [] then s else After(h, name, Apply(h, name, s, steps[0]), steps[1..])
  }

  function Start(first: Value): (r: Sys)
    requires Storable(first)
    ensures Versioned(r.history) && Live(r.history) == Some(Stamped(first, 0)) && r.calls == []
  {
    Sys([Some(Stamped(first, 0))], [], [None])
  }

  // ---------------------------------------------------------------- the invariant

  ghost predicate CallOk(h: Hash, name: string, s: Sys, c: Call) {
    c.readAt < |s.history| && s.history[c.readAt] == Some(c.seen)
    && (c.phase.Ready? || c.phase.Sent? ==> Decision(h, name, c.work, c.seen, c.phase.listing) == Some(c.phase.patch))
  }

  /** Write `n` is the effect of the patch of call `i` on the object it had read, which was the one before. */
  ghost predicate WriteOk(s: Sys, n: nat, i: nat)
    requires n < |s.history|
  {
    n > 0 && i < |s.calls| && s.calls[i].phase.Sent? && s.calls[i].readAt == n - 1
    && s.history[n - 1] == Some(s.calls[i].seen)
    && (var r := ApplyPatch(s.calls[i].seen, s.calls[i].phase.patch);
        r.Some? && Storable(r.value) && s.history[n] == Some(Stamped(r.value, n)))
  }

  ghost predicate Inv(h: Hash, name: string, s: Sys) {
    Versioned(s.history) && |s.writers| == |s.history|
    && (forall i :: 0 <= i < |s.calls| ==> CallOk(h, name, s, s.calls[i]))
    && (forall n :: 0 <= n < |s.writers| && s.writers[n].Some? ==> WriteOk(s, n, s.writers[n].value))
  }

  lemma {:induction false} DecisionTests(h: Hash, name: string, s: History, work: Work, listing: Listing)
    requires Versioned(s) && Live(s).Some? && Decision(h, name, work, Live(s).value, listing).Some?
    ensures Tests(Decision(h, name, work, Live(s).value, listing).value, Text.Decimal(|s| - 1))
  {
    hide Preflight, PlanRollback, Text.Decimal, Text.IntText, TextAt;
    match (work, listing)
    case (RollbackTo(target, o), ReplicaSets(list, clock, time)) =>
      SentRollbackTests(h, s, list, target, o, clock, time);
    case (ScaleTo(count, o), Hpas(answer)) =>
      PatchTests(s, o, [Replace(REPLICAS, Num(Text.IntText(count.n)))]);
    case _ =>
  }

  /** An accepted patch finds the history exactly as its call had read it. */
  lemma {:induction false} SendUntouched(h: Hash, name: string, s: Sys, i: nat)
    requires Inv(h, name, s) && i < |s.calls| && s.calls[i].phase.Ready? && Accepts(s.history, s.calls[i].phase.patch)
    ensures s.calls[i].readAt == |s.history| - 1 && Live(s.history) == Some(s.calls[i].seen)
  {
    hide Decision, Accepts, Text.Decimal;
    var c := s.calls[i];
    assert CallOk(h, name, s, c);
    var past := s.history[..c.readAt + 1];
    assert Versioned(past) by {
      forall j | 0 <= j < |past| && past[j].Some? ensures At(past[j].value, VERSION) == Some(Str(Text.Decimal(j))) {
        assert s.history[j].Some?;
      }
    }
    DecisionTests(h, name, past, c.work, c.phase.listing);
    AcceptedMeansUntouched(past, s.history, c.phase.patch);
  }

  lemma {:induction false} SendStep(h: Hash, name: string, s: Sys, i: nat, fate: Fate)
    requires Inv(h, name, s) && Enabled(s, Deliver(i, fate))
    ensures Inv(h, name, Apply(h, name, s, Deliver(i, fate)))
  {
    hide Decision, ApplyPatch, Text.Decimal;
    var t := Apply(h, name, s, Deliver(i, fate));
    var c := s.calls[i];
    assert CallOk(h, name, s, c);
    if t.history != s.history {
      SendUntouched(h, name, s, i);
    }
    forall j | 0 <= j < |t.calls| ensures CallOk(h, name, t, t.calls[j]) {
      assert CallOk(h, name, s, s.calls[j]);
    }
    forall n | 0 <= n < |t.writers| && t.writers[n].Some? ensures WriteOk(t, n, t.writers[n].value) {
      if n < |s.writers| { assert WriteOk(s, n, s.writers[n].value); }
    }
  }

  lemma {:induction false} InvStep(h: Hash, name: string, s: Sys, step: Step)
    requires Inv(h, name, s) && Enabled(s, step)
    ensures Inv(h, name, Apply(h, name, s, step))
  {
    if step.Deliver? {
      SendStep(h, name, s, step.call, step.fate);
    } else {
      OtherStep(h, name, s, step);
    }
  }

  lemma {:induction false} OtherStep(h: Hash, name: string, s: Sys, step: Step)
    requires Inv(h, name, s) && Enabled(s, step) && !step.Deliver?
    ensures Inv(h, name, Apply(h, name, s, step))
  {
    hide Decision, ApplyPatch, Text.Decimal;
    var t := Apply(h, name, s, step);
    forall j | 0 <= j < |t.calls| ensures CallOk(h, name, t, t.calls[j]) {
      if j < |s.calls| { assert CallOk(h, name, s, s.calls[j]); }
    }
    forall n | 0 <= n < |t.writers| && t.writers[n].Some? ensures WriteOk(t, n, t.writers[n].value) {
      assert WriteOk(s, n, s.writers[n].value);
    }
  }

  lemma {:induction false} InvRun(h: Hash, name: string, s: Sys, steps: seq<Step>)
    requires Inv(h, name, s) && Feasible(h, name, s, steps)
    ensures Inv(h, name, After(h, name, s, steps))
    decreases |steps|
  {
    hide Inv;
    if steps != [] {
      InvStep(h, name, s, steps[0]);
      InvRun(h, name, Apply(h, name, s, steps[0]), steps[1..]);
    }
  }

  // ---------------------------------------------------------------- results

  /**
    No lost update. In every run each stored write of a call is the patch it decided on for the very object that the
    write replaced: the object it had read was still the live one.
   */
  lemma {:induction false} NoLostUpdate(h: Hash, name: string, first: Value, steps: seq<Step>, n: nat)
    requires Storable(first) && Feasible(h, name, Start(first), steps)
    requires var s := After(h, name, Start(first), steps); n < |s.writers| && s.writers[n].Some?
    ensures var s := After(h, name, Start(first), steps);
            |s.writers| == |s.history| && n > 0 && s.writers[n].value < |s.calls|
            && (var c := s.calls[s.writers[n].value];
                c.phase.Sent? && s.history[n - 1] == Some(c.seen)
                && Decision(h, name, c.work, c.seen, c.phase.listing) == Some(c.phase.patch)
                && ApplyPatch(c.seen, c.phase.patch).Some? && Storable(ApplyPatch(c.seen, c.phase.patch).value)
                && s.history[n] == Some(Stamped(ApplyPatch(c.seen, c.phase.patch).value, n)))
  {
    hide Decision, ApplyPatch, Stamped;
    InvRun(h, name, Start(first), steps);
    var s := After(h, name, Start(first), steps);
    assert WriteOk(s, n, s.writers[n].value);
    assert CallOk(h, name, s, s.calls[s.writers[n].value]);
  }

  /** What a scaling call may do to the object it replaces. */
  predicate ScaleOk(name: string, before: Value, after: Value, listing: Listing) {
    1 <= ReplicasOf(after) <= 20 && Distance(ReplicasOf(after), ReplicasOf(before)) <= 5
    && At(after, TEMPLATE) == At(before, TEMPLATE)
    && listing.Hpas? && NoHpa(listing.answer, name)
  }

  lemma {:induction false} SentScale(h: Hash, name: string, past: History, work: Work, listing: Listing)
    requires Versioned(past) && Live(past).Some? && work.ScaleTo?
    requires Decision(h, name, work, Live(past).value, listing).Some?
    requires Accepts(past, Decision(h, name, work, Live(past).value, listing).value)
    ensures var after := Live(Patched(past, Decision(h, name, work, Live(past).value, listing).value));
            after.Some? && ScaleOk(name, Live(past).value, after.value, listing)
  {
    hide Text.Decimal, Text.IntText, ApplyPatch;
    ScaleApplied(past, past, name, work.count, work.options, listing.answer);
  }

  lemma {:induction false} SentRollback(h: Hash, name: string, past: History, work: Work, listing: Listing)
    requires Versioned(past) && Live(past).Some? && work.RollbackTo?
    requires Decision(h, name, work, Live(past).value, listing).Some?
    requires Accepts(past, Decision(h, name, work, Live(past).value, listing).value)
    ensures var after := Live(Patched(past, Decision(h, name, work, Live(past).value, listing).value));
            after.Some? && At(after.value, REPLICAS) == At(Live(past).value, REPLICAS)
  {
    hide Text.Decimal, Text.IntText, ApplyPatch, PlanRollback, Preflight;
    RollbackApplied(h, past, listing.list, work.target, work.options, listing.clock, listing.time);
  }

  lemma {:induction false} CallWrite(h: Hash, name: string, s: Sys, n: nat)
    requires Inv(h, name, s) && n < |s.writers| && s.writers[n].Some?
    ensures n > 0 && s.writers[n].value < |s.calls| && s.history[n - 1].Some? && s.history[n].Some?
    ensures var c := s.calls[s.writers[n].value];
            c.phase.Sent?
            && (c.work.ScaleTo? ==> ScaleOk(name, s.history[n - 1].value, s.history[n].value, c.phase.listing))
            && (c.work.RollbackTo? ==> At(s.history[n].value, REPLICAS) == At(s.history[n - 1].value, REPLICAS))
  {
    hide Text.Decimal, ApplyPatch, Decision, ScaleOk, Stamped;
    assert WriteOk(s, n, s.writers[n].value);
    var c := s.calls[s.writers[n].value];
    assert CallOk(h, name, s, c);
    var past := s.history[..n];
    assert Live(past) == s.history[n - 1];
    assert Versioned(past) by {
      forall j | 0 <= j < |past| && past[j].Some? ensures At(past[j].value, VERSION) == Some(Str(Text.Decimal(j))) {
        assert s.history[j].Some?;
      }
    }
    assert Accepts(past, c.phase.patch) && Live(Patched(past, c.phase.patch)) == s.history[n];
    if c.work.ScaleTo? {
      SentScale(h, name, past, c.work, c.phase.listing);
    } else {
      SentRollback(h, name, past, c.work, c.phase.listing);
    }
  }

  /**
    In every run, whoever else writes, each accepted scaling moves the count of the object it replaces by at
    most 5, into [1, 20], changes nothing of the template, and was decided with no autoscaler on the Deployment.
   */
  lemma {:induction false} ScalingBounded(h: Hash, name: string, first: Value, steps: seq<Step>, n: nat)
    requires Storable(first) && Feasible(h, name, Start(first), steps)
    requires var s := After(h, name, Start(first), steps);
             n < |s.writers| && s.writers[n].Some? && s.writers[n].value < |s.calls|
             && s.calls[s.writers[n].value].work.ScaleTo?
    ensures var s := After(h, name, Start(first), steps);
            |s.history| == |s.writers| && n > 0 && s.history[n - 1].Some? && s.history[n].Some?
            && s.calls[s.writers[n].value].phase.Sent?
            && ScaleOk(name, s.history[n - 1].value, s.history[n].value, s.calls[s.writers[n].value].phase.listing)
  {
    hide ScaleOk;
    InvRun(h, name, Start(first), steps);
    CallWrite(h, name, After(h, name, Start(first), steps), n);
  }

  /** Nobody but the calls changes the count, or deletes the Deployment. */
  predicate CountKept(s: Sys, step: Step) {
    step.Outside? ==>
      step.write.Some? && Live(s.history).Some?
      && ReplicasOf(step.write.value) == ReplicasOf(Live(s.history).value)
  }

  predicate CountsKept(h: Hash, name: string, s: Sys, steps: seq<Step>)
    requires Feasible(h, name, s, steps)
    decreases |steps|
  {
    steps == [] || (CountKept(s, steps[0]) && CountsKept(h, name, Apply(h, name, s, steps[0]), steps[1..]))
  }

  predicate CountIn(v: Option<Value>) { v.Some? && 1 <= ReplicasOf(v.value) <= 20 }

  lemma {:induction false} CountStep(h: Hash, name: string, s: Sys, step: Step)
    requires Inv(h, name, s) && Enabled(s, step) && CountKept(s, step) && CountIn(Live(s.history))
    ensures CountIn(Live(Apply(h, name, s, step).history))
  {
    hide Decision, Submit, Write, ReplicasOf, Inv;
    if step.Deliver? {
      DeliveredCount(h, name, s, step);
    } else if step.Outside? {
      OutsideCount(s.history, step.write.value);
    }
  }

  lemma DeliveredCount(h: Hash, name: string, s: Sys, step: Step)
    requires Inv(h, name, s) && Enabled(s, step) && step.Deliver? && CountIn(Live(s.history))
    ensures CountIn(Live(Apply(h, name, s, step).history))
  {
    hide Decision, ApplyPatch, Text.Decimal, ReplicasOf, At;
    var t := Apply(h, name, s, step);
    if t.history != s.history {
      InvStep(h, name, s, step);
      CallWrite(h, name, t, |t.writers| - 1);
      SameCount(s.history[|s.history| - 1].value, t.history[|t.history| - 1].value);
    }
  }

  lemma OutsideCount(s: History, v: Value)
    requires Live(s).Some? && ReplicasOf(v) == ReplicasOf(Live(s).value)
    ensures Live(Write(s, Some(v))).Some?
    ensures ReplicasOf(Live(Write(s, Some(v))).value) == ReplicasOf(Live(s).value)
  {
    hide Text.Decimal, ReplicasOf, At, Stamped;
    if Storable(v) {
      PathsApart();
      StampedElsewhere(v, |s|, REPLICAS);
      SameCount(v, Stamped(v, |s|));
    }
  }

  lemma SameCount(v: Value, w: Value)
    ensures At(v, REPLICAS) == At(w, REPLICAS) ==> ReplicasOf(v) == ReplicasOf(w)
  {
  }

  /** Then concurrent scalings and rollbacks never take the count out of [1, 20]. */
  lemma {:induction false} CountsStayIn(h: Hash, name: string, s: Sys, steps: seq<Step>)
    requires Inv(h, name, s) && Feasible(h, name, s, steps) && CountsKept(h, name, s, steps) && CountIn(Live(s.history))
    ensures CountIn(Live(After(h, name, s, steps).history))
    decreases |steps|
  {
    hide Inv, CountIn, CountKept;
    if steps != [] {
      CountStep(h, name, s, steps[0]);
      InvStep(h, name, s, steps[0]);
      CountsStayIn(h, name, Apply(h, name, s, steps[0]), steps[1..]);
    }
  }
}
