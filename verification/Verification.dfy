/**
  Recovery verification (agents/verification/src/index.ts, verifyRecovery): pods are sampled a few
  times, two telemetry probes are read, and the verdict fails closed. Probe answers are inputs.
 */
module Verification {

  datatype Container = Container(ready: bool, restartCount: int)

  datatype Pod = Pod(name: string, deleting: bool, running: bool, containers: seq<Container>)

  /** One listing of the service's pods. */
  datatype Sample = Listed(pods: seq<Pod>) | Failed

  /** A Prometheus answer: the parsed number, text that is no number, an empty vector, or no answer. */
  datatype Reading<T> = Number(value: T) | NotANumber | Empty | NoAnswer

  datatype Probe<T> = OK(value: T) | UNAVAILABLE | INVALID

  datatype State = VERIFIED | NOT_RECOVERED | UNKNOWN

  datatype Metrics = Metrics(healthy: nat, total: nat, restarts: int, delta: int)

  datatype Verdict = Verdict(state: State, metrics: Metrics)

  type Baseline = map<string, int>

  // ---------------------------------------------------------------- one sample

  function Active(pods: seq<Pod>): seq<Pod> {
    if pods == [] then [] else (if pods[0].deleting then [] else [pods[0]]) + Active(pods[1..])
  }

  predicate Ready(p: Pod) {
    p.running && p.containers != [] && forall i :: 0 <= i < |p.containers| ==> p.containers[i].ready
  }

  function Restarts(cs: seq<Container>): int {
    if cs == [] then 0 else Restarts(cs[..|cs| - 1]) + cs[|cs| - 1].restartCount
  }

  function PodName(p: Pod): string { if p.name == "" then "unknown" else p.name }

  /** Restarts beyond the pod's baseline; a pod without a baseline has none. */
  function Excess(p: Pod, baseline: Baseline): nat {
    if PodName(p) in baseline && Restarts(p.containers) > baseline[PodName(p)]
    then Restarts(p.containers) - baseline[PodName(p)] else 0
  }

  predicate EveryReady(pods: seq<Pod>) {
    forall i :: 0 <= i < |pods| ==> Ready(pods[i])
  }

  predicate NoExcess(pods: seq<Pod>, baseline: Baseline) {
    forall i :: 0 <= i < |pods| ==> Excess(pods[i], baseline) == 0
  }

  function Measure(pods: seq<Pod>, baseline: Baseline): Metrics {
    if pods == [] then Metrics(0, 0, 0, 0)
    else
      var p := pods[|pods| - 1];
      var m := Measure(pods[..|pods| - 1], baseline);
      Metrics(m.healthy + (if Ready(p) then 1 else 0), m.total + 1,
              m.restarts + Restarts(p.containers), m.delta + Excess(p, baseline))
  }

  /** The counters tell what they are read for: all ready, and nobody beyond the baseline. */
  lemma {:induction false} MeasureMeans(pods: seq<Pod>, baseline: Baseline)
    ensures var m := Measure(pods, baseline);
            m.total == |pods| && m.healthy <= m.total && m.delta >= 0
            && (m.healthy == m.total <==> EveryReady(pods))
            && (m.delta == 0 <==> NoExcess(pods, baseline))
  {
    if pods != [] {
      var n := |pods| - 1;
      MeasureMeans(pods[..n], baseline);
      assert forall i :: 0 <= i < |pods| ==> i == n || pods[i] == pods[..n][i];
      assert Ready(pods[n]) || !Ready(pods[n]);
      assert Excess(pods[n], baseline) >= 0;
    }
  }

  method CountRestarts(cs: seq<Container>) returns (n: int)
    ensures n == Restarts(cs)
  {
    n := 0;
    for j := 0 to |cs|
      invariant n == Restarts(cs[..j])
    {
      assert cs[..j + 1][..j] == cs[..j];
      n := n + cs[j].restartCount;
    }
    assert cs[..|cs|] == cs;
  }

  method MeasurePods(active: seq<Pod>, baseline: Baseline) returns (m: Metrics)
    ensures m == Measure(active, baseline)
  {
    var healthy, restarts, delta := 0, 0, 0;
    for i := 0 to |active|
      invariant Metrics(healthy, i, restarts, delta) == Measure(active[..i], baseline)
    {
      var pod := active[i];
      assert active[..i + 1][..i] == active[..i];
      if Ready(pod) {
        healthy := healthy + 1;
      }
      var podRestarts := CountRestarts(pod.containers);
      restarts := restarts + podRestarts;
      var name := PodName(pod);
      if name in baseline {
        delta := delta + if podRestarts - baseline[name] > 0 then podRestarts - baseline[name] else 0;
      }
    }
    assert active[..|active|] == active;
    m := Metrics(healthy, |active|, restarts, delta);
  }

  // ---------------------------------------------------------------- the sampling window

  /** `samplingWindowSeconds`, 0 when it is not given. */
  function MaxAttempts(window: int): int {
    if window == 0 then 3 else var half := (window + 1) / 2; if half < 5 then half else 5
  }

  /** A sample that ends the window. */
  predicate AllReady(s: Sample) {
    s.Listed? && Active(s.pods) != [] && EveryReady(Active(s.pods))
  }

  /** The attempt that ends the window, from attempt `i` on. */
  function LastAttempt(samples: nat -> Sample, i: nat, max: nat): (last: nat)
    requires i < max
    ensures i <= last < max
    decreases max - i
  {
    if AllReady(samples(i)) || i == max - 1 then i else LastAttempt(samples, i + 1, max)
  }

  /** The sample at which the window ends: the first one that is all ready, or else the last one allowed. */
  predicate LastSample(samples: nat -> Sample, max: int, last: nat) {
    last < max
    && (AllReady(samples(last)) || last == max - 1)
    && forall i :: 0 <= i < last ==> !AllReady(samples(i))
  }

  lemma {:induction false} LastAttemptMeans(samples: nat -> Sample, i: nat, max: nat)
    requires i < max && forall k :: 0 <= k < i ==> !AllReady(samples(k))
    ensures LastSample(samples, max, LastAttempt(samples, i, max))
    decreases max - i
  {
    if !AllReady(samples(i)) && i < max - 1 {
      LastAttemptMeans(samples, i + 1, max);
    }
  }

  function MetricsOf(s: Sample, baseline: Baseline): Metrics {
    match s
    case Listed(pods) => Measure(Active(pods), baseline)
    case Failed => Metrics(0, 0, 0, 0)
  }

  method SamplePods(samples: nat -> Sample, baseline: Baseline, max: int) returns (probe: Probe<()>, m: Metrics)
    ensures probe.OK? <==> max > 0 && samples(LastAttempt(samples, 0, max)).Listed?
    ensures probe.OK? ==> m == MetricsOf(samples(LastAttempt(samples, 0, max)), baseline)
    ensures !probe.OK? ==> probe == UNAVAILABLE
  {
    probe, m := UNAVAILABLE, Metrics(0, 0, 0, 0);
    var attempt := 0;
    while attempt < max
      invariant 0 <= attempt && (max > 0 ==> attempt <= max) && (max <= 0 ==> attempt == 0)
      invariant attempt == 0 ==> probe == UNAVAILABLE
      invariant attempt > 0 ==> probe == if samples(attempt - 1).Listed? then OK(()) else UNAVAILABLE
      invariant attempt > 0 && probe.OK? ==> m == MetricsOf(samples(attempt - 1), baseline)
      invariant attempt > 0 ==> !AllReady(samples(attempt - 1))
      invariant max > 0 && attempt < max ==> LastAttempt(samples, 0, max) == LastAttempt(samples, attempt, max)
      invariant max > 0 && attempt == max ==> LastAttempt(samples, 0, max) == max - 1
    {
      var s := samples(attempt);
      attempt := attempt + 1;
      match s {
        case Listed(pods) =>
          var active := Active(pods);
          m := MeasurePods(active, baseline);
          MeasureMeans(active, baseline);
          probe := OK(());
          if m.total > 0 && m.healthy == m.total {
            break;
          }
        case Failed =>
          probe, m := UNAVAILABLE, Metrics(0, m.total, 0, 0);
      }
    }
  }

  // ---------------------------------------------------------------- telemetry

  /** `Math.round(bytes / (1024 * 1024))`. */
  function Megabytes(bytes: int): int { (2 * bytes + 1048576) / 2097152 }

  function MemoryProbe(r: Reading<int>): Probe<int> {
    match r
    case Number(bytes) => OK(Megabytes(bytes))
    case NotANumber => INVALID
    case _ => UNAVAILABLE
  }

  /** `Math.round(x * 100) / 100`. */
  function Rounded(x: real): real { (x * 100.0 + 0.5).Floor as real / 100.0 }

  /** An empty vector means that there were no requests. */
  function ErrorProbe(r: Reading<real>): Probe<real> {
    match r
    case Number(rate) => OK(Rounded(rate))
    case NotANumber => INVALID
    case Empty => OK(0.0)
    case NoAnswer => UNAVAILABLE
  }

  // ---------------------------------------------------------------- the verdict

  method VerifyRecovery(samples: nat -> Sample, baseline: Baseline, window: int, requireTelemetry: bool,
                        memory: Reading<int>, errors: Reading<real>)
    returns (v: Verdict)
    ensures v == VerdictFor(samples, baseline, MaxAttempts(window), requireTelemetry, memory, errors)
  {
    var podProbe, m := SamplePods(samples, baseline, MaxAttempts(window));
    var memProbe, errorProbe := MemoryProbe(memory), ErrorProbe(errors);
    if !podProbe.OK? {
      return Verdict(UNKNOWN, Metrics(0, 0, 0, 0));
    }
    if requireTelemetry && (memProbe.UNAVAILABLE? || memProbe.INVALID? || errorProbe.INVALID?) {
      return Verdict(UNKNOWN, m);
    }
    var memoryMb := if memProbe.OK? then memProbe.value else 0;
    var errorRate := if errorProbe.OK? then errorProbe.value else 0.0;
    var healthy := m.total > 0 && m.healthy == m.total && memoryMb < 400 && errorRate < 0.1 && m.delta == 0;
    return Verdict(if healthy then VERIFIED else NOT_RECOVERED, m);
  }

  function VerdictFor(samples: nat -> Sample, baseline: Baseline, max: int, requireTelemetry: bool,
                      memory: Reading<int>, errors: Reading<real>): Verdict {
    if max <= 0 then Verdict(UNKNOWN, Metrics(0, 0, 0, 0))
    else
      var last := LastAttempt(samples, 0, max);
      Verdict(StateFor(samples, baseline, max, last, requireTelemetry, memory, errors),
              MetricsOf(samples(last), baseline))
  }

  function StateFor(samples: nat -> Sample, baseline: Baseline, max: int, last: nat, requireTelemetry: bool,
                    memory: Reading<int>, errors: Reading<real>): State {
    var m := MetricsOf(samples(last), baseline);
    var mem, err := MemoryProbe(memory), ErrorProbe(errors);
    if max <= 0 || samples(last).Failed? then UNKNOWN
    else if requireTelemetry && (!mem.OK? || err.INVALID?) then UNKNOWN
    else if m.total > 0 && m.healthy == m.total && (mem.OK? ==> mem.value < 400) && (err.OK? ==> err.value < 0.1)
            && m.delta == 0
    then VERIFIED
    else NOT_RECOVERED
  }

  // ---------------------------------------------------------------- what a verdict means

  /** A memory reading passes below 399.5 MiB. */
  predicate MemoryFine(memory: Reading<int>, required: bool) {
    match memory
    case Number(bytes) => bytes < 418906112
    case _ => !required
  }

  /** An error rate passes below 0.095 percent; no answer passes, and so does text when telemetry is optional. */
  predicate ErrorsFine(errors: Reading<real>, required: bool) {
    match errors
    case Number(rate) => rate < 0.095
    case NotANumber => !required
    case _ => true
  }

  lemma RoundedBelow(rate: real)
    ensures Rounded(rate) < 0.1 <==> rate < 0.095
  {
    var n := (rate * 100.0 + 0.5).Floor;
    assert Rounded(rate) * 100.0 == n as real;
    assert n < 10 <==> rate * 100.0 + 0.5 < 10.0;
  }

  /**
    Some pod is not being deleted, and every such pod runs, has containers, all of them ready, and restarted no more
    often than its baseline, if it has one, says.
   */
  ghost predicate Recovered(pods: seq<Pod>, baseline: Baseline) {
    (exists p :: p in pods && !p.deleting)
    && forall p :: p in pods && !p.deleting ==>
         p.running && p.containers != [] && (forall c :: c in p.containers ==> c.ready)
         && (PodName(p) in baseline ==> Restarts(p.containers) <= baseline[PodName(p)])
  }

  lemma {:induction false} ActiveMembers(pods: seq<Pod>, p: Pod)
    ensures p in Active(pods) <==> p in pods && !p.deleting
  {
    if pods != [] {
      ActiveMembers(pods[1..], p);
      assert p in pods <==> p == pods[0] || p in pods[1..];
    }
  }

  lemma {:induction false} RecoveredIff(pods: seq<Pod>, baseline: Baseline)
    ensures Recovered(pods, baseline) <==> AllReady(Listed(pods)) && NoExcess(Active(pods), baseline)
  {
    hide Restarts;
    var active := Active(pods);
    forall p { ActiveMembers(pods, p); }
    if Recovered(pods, baseline) {
      var p :| p in pods && !p.deleting;
      assert p in active;
      forall i | 0 <= i < |active| ensures Ready(active[i]) && Excess(active[i], baseline) == 0 {
        assert active[i] in active;
        assert forall j :: 0 <= j < |active[i].containers| ==> active[i].containers[j] in active[i].containers;
      }
    }
    if AllReady(Listed(pods)) && NoExcess(active, baseline) {
      assert active[0] in active;
      forall p | p in active
        ensures Ready(p) && Excess(p, baseline) == 0 && forall c :: c in p.containers ==> c.ready
      {
        var i :| 0 <= i < |active| && active[i] == p;
      }
    }
  }

  /** Restarts are summed over the containers. */
  lemma {:induction false} RestartsAdd(a: seq<Container>, b: seq<Container>)
    ensures Restarts(a + b) == Restarts(a) + Restarts(b)
    ensures |a| == 1 ==> Restarts(a) == a[0].restartCount
  {
    if b == [] {
      assert a + b == a;
    } else {
      var n := |b| - 1;
      assert (a + b)[..|a + b| - 1] == a + b[..n];
      RestartsAdd(a, b[..n]);
    }
  }

  /**
    VERIFIED, exactly: the window ends on a sample that is all ready with no excess restarts, and the telemetry
    is fine.
   */
  lemma {:induction false} VerifiedIff(samples: nat -> Sample, baseline: Baseline, max: int, required: bool,
                                       memory: Reading<int>, errors: Reading<real>)
    ensures VerdictFor(samples, baseline, max, required, memory, errors).state == VERIFIED
            <==> MemoryFine(memory, required) && ErrorsFine(errors, required)
                 && exists last ::
                      LastSample(samples, max, last) && samples(last).Listed?
                      && Recovered(samples(last).pods, baseline)
  {
    forall pods { RecoveredIff(pods, baseline); }
    if max > 0 {
      var last := LastAttempt(samples, 0, max);
      LastAttemptMeans(samples, 0, max);
      forall other: nat | LastSample(samples, max, other) { LastSampleUnique(samples, max, last, other); }
      if samples(last).Listed? {
        MeasureMeans(Active(samples(last).pods), baseline);
      }
    }
    if errors.Number? { RoundedBelow(errors.value); }
  }

  /**
    UNKNOWN, exactly: no sample could be taken, the one that ends the window failed, or required
    telemetry is missing. Earlier samples do not matter.
   */
  lemma {:induction false} UnknownIff(samples: nat -> Sample, baseline: Baseline, max: int, required: bool,
                                      memory: Reading<int>, errors: Reading<real>)
    ensures VerdictFor(samples, baseline, max, required, memory, errors).state == UNKNOWN
            <==> max <= 0 || (required && (!memory.Number? || errors.NotANumber?))
                 || exists last :: LastSample(samples, max, last) && samples(last).Failed?
  {
    if max > 0 {
      var last := LastAttempt(samples, 0, max);
      LastAttemptMeans(samples, 0, max);
      forall other: nat | LastSample(samples, max, other) { LastSampleUnique(samples, max, last, other); }
    }
  }

  /** The counters of a verdict are those of the sample that ends the window; without one they are all zero. */
  lemma {:induction false} VerdictCounts(samples: nat -> Sample, baseline: Baseline, max: int, required: bool,
                                         memory: Reading<int>, errors: Reading<real>, last: nat)
    requires max > 0 ==> LastSample(samples, max, last)
    ensures var m := VerdictFor(samples, baseline, max, required, memory, errors).metrics;
            if max <= 0 || samples(last).Failed? then m == Metrics(0, 0, 0, 0)
            else m == Measure(Active(samples(last).pods), baseline) && m.total == |Active(samples(last).pods)|
  {
    if max > 0 {
      LastAttemptMeans(samples, 0, max);
      LastSampleUnique(samples, max, last, LastAttempt(samples, 0, max));
      if samples(last).Listed? {
        MeasureMeans(Active(samples(last).pods), baseline);
      }
    }
  }

  /** The sample that ends the window is unique. */
  lemma LastSampleUnique(samples: nat -> Sample, max: int, a: nat, b: nat)
    requires LastSample(samples, max, a) && LastSample(samples, max, b)
    ensures a == b
  {
    assert a < b ==> !AllReady(samples(a));
    assert b < a ==> !AllReady(samples(b));
  }

  /** How many samples a window allows: three if none is given, else half its seconds, rounded up, up to five. */
  lemma SamplesAllowed(window: int)
    ensures window == 0 ==> MaxAttempts(window) == 3
    ensures 1 <= window <= 9 ==> 2 * MaxAttempts(window) - 1 <= window <= 2 * MaxAttempts(window)
    ensures window >= 9 ==> MaxAttempts(window) == 5
    ensures window < 0 ==> MaxAttempts(window) <= 0
  {
  }

  /** The counters add up over the pods. */
  lemma {:induction false} MeasureAdds(pods: seq<Pod>, p: Pod, baseline: Baseline)
    ensures var m, n := Measure(pods, baseline), Measure(pods + [p], baseline);
            var name := if p.name == "" then "unknown" else p.name;
            var more := if name in baseline then Restarts(p.containers) - baseline[name] else 0;
            n.total == m.total + 1 && n.restarts == m.restarts + Restarts(p.containers)
            && n.healthy == m.healthy
               + (if p.running && p.containers != [] && (forall c :: c in p.containers ==> c.ready) then 1 else 0)
            && n.delta == m.delta + (if more > 0 then more else 0)
            && Measure([], baseline) == Metrics(0, 0, 0, 0)
  {
    assert (pods + [p])[..|pods|] == pods;
    assert forall i :: 0 <= i < |p.containers| ==> p.containers[i] in p.containers;
  }

  /**
    A negative window takes no sample, so its verdict is UNKNOWN whatever the cluster is like. Any other takes
    between one and five, and verifies when all pods are ready at the first and the telemetry is fine.
   */
  lemma {:induction false} WindowDecides(samples: nat -> Sample, baseline: Baseline, window: int, required: bool,
                                         memory: Reading<int>, errors: Reading<real>)
    ensures MaxAttempts(window) <= 5
    ensures var state := VerdictFor(samples, baseline, MaxAttempts(window), required, memory, errors).state;
            (window < 0 ==> state == UNKNOWN)
            && ((window >= 0 && samples(0).Listed? && Recovered(samples(0).pods, baseline)
                 && MemoryFine(memory, required) && ErrorsFine(errors, required)) ==> state == VERIFIED)
  {
    if window >= 0 && samples(0).Listed? && Recovered(samples(0).pods, baseline) {
      RecoveredIff(samples(0).pods, baseline);
      assert LastSample(samples, MaxAttempts(window), 0);
      VerifiedIff(samples, baseline, MaxAttempts(window), required, memory, errors);
    }
  }

  /** Below their limits as written, 0.1 percent and 400 MiB, and yet not recovered: rounding puts them on the limit. */
  lemma {:induction false} RoundingRefuses(samples: nat -> Sample, baseline: Baseline)
    requires samples(0).Listed? && Recovered(samples(0).pods, baseline)
    ensures VerdictFor(samples, baseline, 3, true, Number(0), Number(0.097)).state == NOT_RECOVERED
    ensures VerdictFor(samples, baseline, 3, true, Number(400 * 1048576 - 1), Number(0.0)).state == NOT_RECOVERED
  {
    RecoveredIff(samples(0).pods, baseline);
    assert LastSample(samples, 3, 0);
    RoundedBelow(0.097);
    VerifiedIff(samples, baseline, 3, true, Number(0), Number(0.097));
    VerifiedIff(samples, baseline, 3, true, Number(400 * 1048576 - 1), Number(0.0));
    UnknownIff(samples, baseline, 3, true, Number(0), Number(0.097));
    UnknownIff(samples, baseline, 3, true, Number(400 * 1048576 - 1), Number(0.0));
    forall other: nat | LastSample(samples, 3, other) { LastSampleUnique(samples, 3, 0, other); }
  }
}
