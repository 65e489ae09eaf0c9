/**
  Correlation of incoming events with open incidents (services/correlation-engine/src/index.ts)
  over the in-memory repository (services/incident-engine/src/repository.ts:
  findCandidateIncidents, createIncident, linkEvent).

  An incident is referred to by its position in the repository, which keeps insertion order. A call
  looks its candidates up, waits, and then acts on them as they are by then; other calls may look up
  and act in between.
 */
module Correlation {
  import opened Wrappers
  import opened Text
  import opened Lifecycle
  import opened IncidentDb

  datatype EventSeverity = INFO | WARNING | ERROR | CRITICAL

  /** An absent field is the empty string. */
  datatype Event = Event(
    id: string,
    tenantId: string,
    service: string,
    environment: string,
    cluster: string,
    namespace: string,
    severity: EventSeverity,
    eventType: string,
    timestamp: int,
    deploymentUid: string,
    alertFingerprint: string)

  datatype Incident = Incident(
    id: string,
    tenantId: string,
    service: string,
    environment: string,
    cluster: string,
    namespace: string,
    severity: Severity,
    state: State,
    createdAt: int,
    eventIds: seq<string>,
    deploymentUid: string,
    alertFingerprint: string)

  function TenantOf(e: Event): string { if e.tenantId == "" then "tenant-eu-default" else e.tenantId }

  /** Outside demo mode an event must name its target. */
  predicate Identified(e: Event) {
    e.service != "" && e.service != "UNKNOWN"
    && e.environment != "" && e.environment != "UNKNOWN"
    && e.cluster != "" && e.cluster != "UNKNOWN"
  }

  function OrDefault(s: string, default: string): string { if s == "" then default else s }

  // ---------------------------------------------------------------- candidates

  predicate Open(inc: Incident) { inc.state != RESOLVED && inc.state != POSTMORTEM }

  /** The indexed lookup; an empty service or environment does not filter. */
  predicate Candidate(inc: Incident, e: Event, window: int) {
    inc.tenantId == TenantOf(e) && Open(inc)
    && (e.service != "" ==> Lower(inc.service) == Lower(e.service))
    && (e.environment != "" ==> inc.environment == e.environment)
    && inc.createdAt >= e.timestamp - window * 60000
  }

  function Candidates(incidents: seq<Incident>, e: Event, window: int): (r: seq<nat>)
    ensures forall k :: 0 <= k < |r| ==> r[k] < |incidents| && Candidate(incidents[r[k]], e, window)
    ensures forall i :: 0 <= i < |incidents| && Candidate(incidents[i], e, window) ==> i in r
  {
    if incidents == [] then []
    else
      var n := |incidents| - 1;
      Candidates(incidents[..n], e, window) + (if Candidate(incidents[n], e, window) then [n] else [])
  }

  // ---------------------------------------------------------------- evidence

  predicate Same(a: string, b: string) { a != "" && b != "" && a == b }

  function Distance(a: int, b: int): int { if a < b then b - a else a - b }

  function Score(inc: Incident, e: Event, window: int): nat {
    (if Lower(inc.service) == Lower(e.service) then 30 else 0)
    + (if inc.environment == e.environment then 20 else 0)
    + (if Same(inc.namespace, e.namespace) then 15 else 0)
    + (if Same(inc.cluster, e.cluster) then 10 else 0)
    + (if Same(inc.deploymentUid, e.deploymentUid) then 20 else 0)
    + (if Same(inc.alertFingerprint, e.alertFingerprint) then 15 else 0)
    + Nearness(Distance(e.timestamp, inc.createdAt), window)
  }

  function Nearness(distance: int, window: int): nat {
    if distance <= 300000 then 10 else if distance <= window * 60000 then 5 else 0
  }

  predicate Takes(inc: Incident, e: Event, window: int) {
    e.id in inc.eventIds || Score(inc, e, window) >= 50
  }

  function FirstTaker(incidents: seq<Incident>, candidates: seq<nat>, e: Event, window: int): (r: Option<nat>)
    ensures r.Some? ==> r.value < |incidents|
  {
    if candidates == [] then None
    else if candidates[0] < |incidents| && Takes(incidents[candidates[0]], e, window) then Some(candidates[0])
    else FirstTaker(incidents, candidates[1..], e, window)
  }

  // ---------------------------------------------------------------- effects

  function Upgrade(s: Severity, e: EventSeverity): Severity {
    if e == CRITICAL then SEV_1 else if e == ERROR && s != SEV_1 then SEV_2 else s
  }

  function Absorb(inc: Incident, e: Event): Incident {
    if e.id in inc.eventIds then inc
    else inc.(severity := Upgrade(inc.severity, e.severity), eventIds := inc.eventIds + [e.id])
  }

  predicate Contains(s: string, t: string) {
    t <= s || (s != "" && Contains(s[1..], t))
  }

  predicate Triggering(e: Event) {
    e.severity == CRITICAL || e.severity == ERROR || StartsWith(e.eventType, "alert.")
    || Contains(e.eventType, "oomkilled") || Contains(e.eventType, "crashloop")
  }

  function OpeningSeverity(e: Event): Severity {
    if !Triggering(e) then SEV_3 else if e.severity == CRITICAL then SEV_1 else SEV_2
  }

  /** A new incident is dated by the clock, not by the event. */
  function Opened(e: Event, id: string, now: int): Incident {
    Incident(id, TenantOf(e), e.service, OrDefault(e.environment, "production"), OrDefault(e.cluster, "aks-aisre-prod"),
             OrDefault(e.namespace, "sre-demo"), OpeningSeverity(e), DETECTED, now, [e.id], "", "")
  }

  datatype Outcome = Unresolved
      | Duplicated(incident: nat)
      | Matched(incident: nat, confidence: nat)
      | Created(incident: nat)

  function Min(a: nat, b: nat): nat { if a < b then a else b }

  /** The second half of a call: the loop over the candidates found before, and the creation if none takes the event. */
  function Act(incidents: seq<Incident>, candidates: seq<nat>, e: Event, window: int, id: string, now: int)
    : (Outcome, seq<Incident>)
  {
    var taker := FirstTaker(incidents, candidates, e, window);
    if taker.None? then (Created(|incidents|), incidents + [Opened(e, id, now)])
    else
      var inc := incidents[taker.value];
      (if e.id in inc.eventIds then Duplicated(taker.value) else Matched(taker.value, Min(Score(inc, e, window), 100)),
       incidents[taker.value := Absorb(inc, e)])
  }

  /** A call during which the repository becomes `meanwhile`. */
  function CorrelateAmid(incidents: seq<Incident>, meanwhile: seq<Incident>, e: Event, window: int, demo: bool,
      id: string, now: int)
    : (Outcome, seq<Incident>)
  {
    if !demo && !Identified(e) then (Unresolved, incidents)
    else Act(meanwhile, Candidates(incidents, e, window), e, window, id, now)
  }

  /** An undisturbed call. */
  function Correlate(incidents: seq<Incident>, e: Event, window: int, demo: bool, id: string, now: int)
    : (Outcome, seq<Incident>)
  {
    CorrelateAmid(incidents, incidents, e, window, demo, id, now)
  }

  // ---------------------------------------------------------------- the engine

  class Repository {
    var incidents: seq<Incident>

    constructor ()
      ensures incidents == []
    {
      incidents := [];
    }

    /** What other calls do in the meantime. */
    method Interfere(meanwhile: seq<Incident>)
      modifies this
      ensures incidents == meanwhile
    {
      incidents := meanwhile;
    }

    method LinkEvent(k: nat, e: Event)
      requires k < |incidents|
      modifies this
      ensures incidents == old(incidents)[k := old(incidents)[k].(eventIds :=
                if e.id in old(incidents)[k].eventIds then old(incidents)[k].eventIds
                else old(incidents)[k].eventIds + [e.id])]
    {
      if e.id !in incidents[k].eventIds {
        incidents := incidents[k := incidents[k].(eventIds := incidents[k].eventIds + [e.id])];
      }
    }

    method CreateIncident(e: Event, severity: Severity, id: string, now: int) returns (k: nat)
      modifies this
      ensures k == |old(incidents)| && incidents == old(incidents) + [Opened(e, id, now).(severity := severity)]
    {
      k := |incidents|;
      incidents := incidents + [Opened(e, id, now).(severity := severity)];
    }
  }

  class CorrelationEngine {
    const repo: Repository
    const windowMinutes: int
    const demoMode: bool

    constructor (repo: Repository, windowMinutes: int, demoMode: bool)
      ensures this.repo == repo && this.windowMinutes == windowMinutes && this.demoMode == demoMode
    {
      this.repo := repo;
      this.windowMinutes := windowMinutes;
      this.demoMode := demoMode;
    }

    method Evidence(incident: Incident, e: Event) returns (score: nat)
      ensures score == Score(incident, e, windowMinutes)
    {
      score := 0;
      if Lower(incident.service) == Lower(e.service) {
        score := score + 30;
      }
      if incident.environment == e.environment {
        score := score + 20;
      }
      if Same(incident.namespace, e.namespace) {
        score := score + 15;
      }
      if Same(incident.cluster, e.cluster) {
        score := score + 10;
      }
      if Same(incident.deploymentUid, e.deploymentUid) {
        score := score + 20;
      }
      if Same(incident.alertFingerprint, e.alertFingerprint) {
        score := score + 15;
      }
      var diff := Distance(e.timestamp, incident.createdAt);
      if diff <= 300000 {
        score := score + 10;
      } else if diff <= windowMinutes * 60000 {
        score := score + 5;
      }
    }

    /** `meanwhile` is what the repository holds when the awaited lookup returns. */
    method CorrelateEvent(e: Event, id: string, now: int, meanwhile: seq<Incident>) returns (r: Outcome)
      requires |repo.incidents| <= |meanwhile|
      modifies repo
      ensures (r, repo.incidents) == CorrelateAmid(old(repo.incidents), meanwhile, e, windowMinutes, demoMode, id, now)
    {
      hide Score, Candidate;
      if !demoMode && !Identified(e) {
        return Unresolved;
      }
      var candidates := Candidates(repo.incidents, e, windowMinutes);
      repo.Interfere(meanwhile);
      for k := 0 to |candidates|
        invariant repo.incidents == meanwhile
        invariant FirstTaker(meanwhile, candidates, e, windowMinutes)
                  == FirstTaker(meanwhile, candidates[k..], e, windowMinutes)
      {
        var incident := repo.incidents[candidates[k]];
        assert candidates[k..][0] == candidates[k] && candidates[k..][1..] == candidates[k + 1..];
        if e.id in incident.eventIds {
          assert repo.incidents[candidates[k] := incident] == repo.incidents;
          return Duplicated(candidates[k]);
        }
        var score := Evidence(incident, e);
        var confidence := Min(score, 100);
        if confidence >= 50 {
          if e.severity == CRITICAL {
            incident := incident.(severity := SEV_1);
          } else if e.severity == ERROR && incident.severity != SEV_1 {
            incident := incident.(severity := SEV_2);
          }
          repo.incidents := repo.incidents[candidates[k] := incident];
          repo.LinkEvent(candidates[k], e);
          assert repo.incidents == meanwhile[candidates[k] := Absorb(meanwhile[candidates[k]], e)];
          return Matched(candidates[k], confidence);
        }
      }
      assert candidates[|candidates|..] == [];
      var triggering := Triggering(e);
      var severity := if triggering then if e.severity == CRITICAL then SEV_1 else SEV_2 else SEV_3;
      var created := repo.CreateIncident(e, severity, id, now);
      return Created(created);
    }
  }

  // ---------------------------------------------------------------- the simple rule

  /** Of the same tenant, service (ignoring case) and environment, open, and young enough for the event. */
  predicate Covers(inc: Incident, e: Event, window: int) {
    inc.state != RESOLVED && inc.state != POSTMORTEM
    && inc.tenantId == (if e.tenantId == "" then "tenant-eu-default" else e.tenantId)
    && Lower(inc.service) == Lower(e.service) && inc.environment == e.environment
    && inc.createdAt >= e.timestamp - window * 60000
  }

  lemma CoversTakes(inc: Incident, e: Event, window: int)
    requires Identified(e)
    ensures Candidate(inc, e, window) <==> Covers(inc, e, window)
    ensures Covers(inc, e, window) ==> Takes(inc, e, window) && Score(inc, e, window) >= 50
  {
  }

  lemma {:induction false} TakerOfCandidates(incidents: seq<Incident>, candidates: seq<nat>, e: Event, window: int)
    requires Identified(e)
    requires forall k :: 0 <= k < |candidates| ==>
               candidates[k] < |incidents| && Candidate(incidents[candidates[k]], e, window)
    ensures FirstTaker(incidents, candidates, e, window) == if candidates == [] then None else Some(candidates[0])
  {
    if candidates != [] {
      CoversTakes(incidents[candidates[0]], e, window);
    }
  }

  /** In any mode, a call joins the first candidate that holds the event already or scores at least 50. */
  lemma {:induction false} FirstTakerMeans(incidents: seq<Incident>, candidates: seq<nat>, e: Event, window: int)
    requires forall k :: 0 <= k < |candidates| ==> candidates[k] < |incidents|
    ensures var r := FirstTaker(incidents, candidates, e, window);
            if r.None?
            then forall k :: 0 <= k < |candidates| ==>
                   e.id !in incidents[candidates[k]].eventIds && Score(incidents[candidates[k]], e, window) < 50
            else exists k :: 0 <= k < |candidates| && r.value == candidates[k]
                   && (e.id in incidents[r.value].eventIds || Score(incidents[r.value], e, window) >= 50)
                   && forall j :: 0 <= j < k ==>
                        e.id !in incidents[candidates[j]].eventIds && Score(incidents[candidates[j]], e, window) < 50
  {
    hide Score;
    if candidates != [] && !Takes(incidents[candidates[0]], e, window) {
      FirstTakerMeans(incidents, candidates[1..], e, window);
      var r := FirstTaker(incidents, candidates, e, window);
      assert forall k :: 0 < k < |candidates| ==> candidates[k] == candidates[1..][k - 1];
      if r.Some? {
        var k :| 0 <= k < |candidates[1..]| && r.value == candidates[1..][k]
                 && forall j :: 0 <= j < k ==> !Takes(incidents[candidates[1..][j]], e, window);
        assert r.value == candidates[k + 1];
      }
    }
  }

  /** What an agreement on the target adds to the score, all else being equal. */
  lemma TargetWeights(inc: Incident, e: Event, window: int, other: string)
    ensures Lower(inc.service) != Lower(other) ==>
              Score(inc, e.(service := inc.service), window) == Score(inc, e.(service := other), window) + 30
    ensures inc.environment != other ==>
              Score(inc, e.(environment := inc.environment), window)
              == Score(inc, e.(environment := other), window) + 20
  {
    hide Lower, Nearness, Same;
  }

  /** What further evidence adds; an absent field never agrees. */
  lemma EvidenceWeights(inc: Incident, e: Event, window: int, other: string)
    ensures inc.namespace !in {"", other} ==>
              Score(inc, e.(namespace := inc.namespace), window) == Score(inc, e.(namespace := other), window) + 15
    ensures inc.cluster !in {"", other} ==>
              Score(inc, e.(cluster := inc.cluster), window) == Score(inc, e.(cluster := other), window) + 10
    ensures inc.deploymentUid !in {"", other} ==>
              Score(inc, e.(deploymentUid := inc.deploymentUid), window)
              == Score(inc, e.(deploymentUid := other), window) + 20
    ensures inc.alertFingerprint !in {"", other} ==>
              Score(inc, e.(alertFingerprint := inc.alertFingerprint), window)
              == Score(inc, e.(alertFingerprint := other), window) + 15
  {
    hide Lower, Nearness;
  }

  /**
    What nearness in time adds: 10 within five minutes, else 5 within the window. An event with nothing in common, not
    even absent fields, and far away scores 0.
   */
  lemma NearnessWeights(inc: Incident, e: Event, window: int, near: int)
    requires window >= 0
    ensures var far := inc.createdAt + 300001 + window * 60000;
            var base := Score(inc, e.(timestamp := far), window);
            var span := if near < 0 then 0 - near else near;
            Score(inc, e.(timestamp := inc.createdAt + near), window)
            == base + (if span <= 300000 then 10 else if span <= window * 60000 then 5 else 0)
    ensures Lower(inc.service) != Lower(e.service) && inc.environment != e.environment && inc.namespace == ""
            && inc.cluster == "" && inc.deploymentUid == "" && inc.alertFingerprint == "" ==>
              Score(inc, e, window) <= 10
  {
    hide Lower, Same;
    NothingAbsent(inc, e);
  }

  lemma NothingAbsent(inc: Incident, e: Event)
    ensures !Same("", e.namespace) && !Same("", e.cluster) && !Same("", e.deploymentUid)
    ensures !Same("", e.alertFingerprint)
  {
  }

  /** The scoring loop amounts to one rule: an event opens an incident exactly when no incident covers it. */
  lemma {:induction false} OpensIff(incidents: seq<Incident>, e: Event, window: int, id: string, now: int)
    requires Identified(e)
    ensures Correlate(incidents, e, window, false, id, now).0.Created?
            <==> forall i :: 0 <= i < |incidents| ==> !Covers(incidents[i], e, window)
  {
    var cs := Candidates(incidents, e, window);
    TakerOfCandidates(incidents, cs, e, window);
    forall i | 0 <= i < |incidents| ensures Candidate(incidents[i], e, window) <==> Covers(incidents[i], e, window) {
      CoversTakes(incidents[i], e, window);
    }
  }

  lemma {:induction false} NoCandidates(incidents: seq<Incident>, e: Event, window: int)
    requires forall i :: 0 <= i < |incidents| ==> !Candidate(incidents[i], e, window)
    ensures Candidates(incidents, e, window) == []
  {
    hide Candidate;
    if incidents != [] {
      NoCandidates(incidents[..|incidents| - 1], e, window);
    }
  }

  lemma {:induction false} FirstCandidate(incidents: seq<Incident>, e: Event, window: int, n: nat)
    requires n < |incidents| && Candidate(incidents[n], e, window)
    requires forall i :: 0 <= i < n ==> !Candidate(incidents[i], e, window)
    ensures Candidates(incidents, e, window) != [] && Candidates(incidents, e, window)[0] == n
    decreases |incidents|
  {
    hide Candidate;
    var m := |incidents| - 1;
    if n < m {
      FirstCandidate(incidents[..m], e, window, n);
    } else {
      NoCandidates(incidents[..m], e, window);
    }
  }

  /** Outside demo mode exactly the events that leave service, environment or cluster open are turned away. */
  lemma UnresolvedIff(incidents: seq<Incident>, e: Event, window: int, demo: bool, id: string, now: int)
    ensures Correlate(incidents, e, window, demo, id, now).0.Unresolved?
            <==> !demo
                 && (e.service in {"", "UNKNOWN"} || e.environment in {"", "UNKNOWN"} || e.cluster in {"", "UNKNOWN"})
    ensures Correlate(incidents, e, window, demo, id, now).0.Unresolved? ==>
              Correlate(incidents, e, window, demo, id, now).1 == incidents
  {
    hide Score, Candidate;
  }

  /**
    Which incidents a lookup finds: those of the tenant that are open and young enough, of the service and in the
    environment that the event names; one that it leaves open matches all.
   */
  lemma LookupFinds(incidents: seq<Incident>, e: Event, window: int, i: nat)
    requires i < |incidents|
    ensures var inc := incidents[i];
            i in Candidates(incidents, e, window)
            <==> inc.state !in {RESOLVED, POSTMORTEM} && inc.tenantId == TenantOf(e)
                 && inc.createdAt + window * 60000 >= e.timestamp
                 && (e.service == "" || Lower(inc.service) == Lower(e.service))
                 && e.environment in {"", inc.environment}
  {
    hide Lower;
    assert Candidate(incidents[i], e, window) ==> i in Candidates(incidents, e, window);
  }

  predicate Mentions(s: string, t: string) {
    exists k :: 0 <= k <= |s| - |t| && s[k..][..|t|] == t
  }

  lemma {:induction false} ContainsIff(s: string, t: string)
    ensures Contains(s, t) <==> Mentions(s, t)
  {
    if t <= s {
      assert s[0..] == s && s[0..][..|t|] == t;
    } else if s != "" {
      ContainsIff(s[1..], t);
      if k :| 0 <= k <= |s| - 1 - |t| && s[1..][k..][..|t|] == t {
        assert s[k + 1..] == s[1..][k..];
      }
      if k :| 0 <= k <= |s| - |t| && s[k..][..|t|] == t {
        assert s[0..] == s;
        assert k > 0 && s[1..][k - 1..] == s[k..];
      }
    }
  }

  predicate RaisesAlarm(e: Event) {
    "alert." <= e.eventType || Mentions(e.eventType, "oomkilled") || Mentions(e.eventType, "crashloop")
  }

  /**
    What a new incident holds: the event and its target, dated now, in DETECTED, with defaults for what a demo event
    leaves open. It is SEV-1 exactly for a CRITICAL event,
    SEV-2 exactly for an ERROR or an alarm otherwise, and else SEV-3.
   */
  lemma {:induction false} NewIncident(incidents: seq<Incident>, e: Event, window: int, demo: bool, id: string,
      now: int)
    requires Correlate(incidents, e, window, demo, id, now).0.Created?
    ensures var after := Correlate(incidents, e, window, demo, id, now).1;
            |after| == |incidents| + 1 && after[..|incidents|] == incidents
            && var inc := after[|incidents|];
               inc.id == id && inc.eventIds == [e.id] && inc.state == DETECTED && inc.createdAt == now
               && inc.tenantId == TenantOf(e) && inc.service == e.service
               && inc.environment == (if e.environment == "" then "production" else e.environment)
               && inc.cluster == (if e.cluster == "" then "aks-aisre-prod" else e.cluster)
               && inc.namespace == (if e.namespace == "" then "sre-demo" else e.namespace)
               && inc.deploymentUid == "" && inc.alertFingerprint == ""
               && (inc.severity == SEV_1 <==> e.severity == CRITICAL)
               && (inc.severity == SEV_2 <==> e.severity == ERROR || (e.severity != CRITICAL && RaisesAlarm(e)))
               && inc.severity != SEV_4
  {
    hide Candidate, Score, Takes;
    ContainsIff(e.eventType, "oomkilled");
    ContainsIff(e.eventType, "crashloop");
  }

  /** Otherwise the oldest covering incident absorbs it. */
  lemma {:induction false} JoinsFirst(incidents: seq<Incident>, e: Event, window: int, id: string, now: int, n: nat)
    requires Identified(e) && n < |incidents| && Covers(incidents[n], e, window)
    requires forall i :: 0 <= i < n ==> !Covers(incidents[i], e, window)
    ensures Correlate(incidents, e, window, false, id, now).1 == incidents[n := Absorb(incidents[n], e)]
    ensures var r := Correlate(incidents, e, window, false, id, now).0;
            if e.id in incidents[n].eventIds then r == Duplicated(n)
            else r.Matched? && r.incident == n && 50 <= r.confidence <= 100
                 && (Score(incidents[n], e, window) <= 100 ==> r.confidence == Score(incidents[n], e, window))
  {
    CoversTakes(incidents[n], e, window);
    forall i | 0 <= i < |incidents| ensures Candidate(incidents[i], e, window) <==> Covers(incidents[i], e, window) {
      CoversTakes(incidents[i], e, window);
    }
    FirstCandidate(incidents, e, window, n);
    TakerOfCandidates(incidents, Candidates(incidents, e, window), e, window);
  }

  // ---------------------------------------------------------------- storms

  datatype Arrival = Arrival(event: Event, now: int, id: string)

  function CorrelateAll(incidents: seq<Incident>, arrivals: seq<Arrival>, window: int): seq<Incident>
    decreases |arrivals|
  {
    if arrivals == [] then incidents
    else
      var a := arrivals[0];
      CorrelateAll(Correlate(incidents, a.event, window, false, a.id, a.now).1, arrivals[1..], window)
  }

  function AbsorbAll(inc: Incident, arrivals: seq<Arrival>): Incident
    decreases |arrivals|
  {
    if arrivals == [] then inc else AbsorbAll(Absorb(inc, arrivals[0].event), arrivals[1..])
  }

  /** Identified events that `inc` covers and none of `old` does. */
  predicate StormFor(older: seq<Incident>, inc: Incident, arrivals: seq<Arrival>, window: int) {
    forall k :: 0 <= k < |arrivals| ==>
      Identified(arrivals[k].event) && Covers(inc, arrivals[k].event, window)
      && forall i :: 0 <= i < |older| ==> !Covers(older[i], arrivals[k].event, window)
  }

  lemma {:induction false} StormJoins(older: seq<Incident>, inc: Incident, arrivals: seq<Arrival>, window: int)
    requires StormFor(older, inc, arrivals, window)
    ensures CorrelateAll(older + [inc], arrivals, window) == older + [AbsorbAll(inc, arrivals)]
    decreases |arrivals|
  {
    hide Correlate;
    if arrivals != [] {
      var a := arrivals[0];
      var n := |older|;
      JoinsFirst(older + [inc], a.event, window, a.id, a.now, n);
      assert (older + [inc])[n := Absorb(inc, a.event)] == older + [Absorb(inc, a.event)];
      forall k | 0 <= k < |arrivals| - 1
        ensures Identified(arrivals[1..][k].event) && Covers(Absorb(inc, a.event), arrivals[1..][k].event, window)
        ensures forall i :: 0 <= i < |older| ==> !Covers(older[i], arrivals[1..][k].event, window)
      {
        assert arrivals[1..][k] == arrivals[k + 1];
      }
      StormJoins(older, Absorb(inc, a.event), arrivals[1..], window);
    }
  }

  /**
    A storm opens one incident. When no incident covers any of the events, and all of them are for
    one tenant, service and environment and dated at most the window after the first one arrived,
    the first opens an incident and all others join it.
   */
  lemma {:induction false} StormOpensOne(incidents: seq<Incident>, arrivals: seq<Arrival>, window: int)
    requires arrivals != []
    requires forall k :: 0 <= k < |arrivals| ==>
               Identified(arrivals[k].event) && SameTarget(arrivals[0].event, arrivals[k].event)
               && arrivals[k].event.timestamp - window * 60000 <= arrivals[0].now
               && forall i :: 0 <= i < |incidents| ==> !Covers(incidents[i], arrivals[k].event, window)
    ensures CorrelateAll(incidents, arrivals, window)
            == incidents + [AbsorbAll(Opened(arrivals[0].event, arrivals[0].id, arrivals[0].now), arrivals[1..])]
  {
    var a := arrivals[0];
    var inc := Opened(a.event, a.id, a.now);
    OpensIff(incidents, a.event, window, a.id, a.now);
    assert Correlate(incidents, a.event, window, false, a.id, a.now).1 == incidents + [inc];
    forall k | 0 <= k < |arrivals| - 1
      ensures Identified(arrivals[1..][k].event) && Covers(inc, arrivals[1..][k].event, window)
      ensures forall i :: 0 <= i < |incidents| ==> !Covers(incidents[i], arrivals[1..][k].event, window)
    {
      assert arrivals[1..][k] == arrivals[k + 1];
    }
    StormJoins(incidents, inc, arrivals[1..], window);
  }

  predicate SameTarget(a: Event, b: Event) {
    TenantOf(a) == TenantOf(b) && Lower(a.service) == Lower(b.service) && a.environment == b.environment
  }

  // ---------------------------------------------------------------- overlapping calls

  datatype Call = Call(event: Event, candidates: seq<nat>, acted: bool)

  datatype Sys = Sys(incidents: seq<Incident>, calls: seq<Call>)

  datatype Step = LookUp(event: Event) | Finish(call: nat, id: string, now: int)

  predicate Enabled(s: Sys, step: Step) {
    match step
    case LookUp(e) => Identified(e)
    case Finish(k, _, _) => k < |s.calls| && !s.calls[k].acted
  }

  function Apply(s: Sys, step: Step, window: int): Sys
    requires Enabled(s, step)
  {
    match step
    case LookUp(e) => s.(calls := s.calls + [Call(e, Candidates(s.incidents, e, window), false)])
    case Finish(k, id, now) =>
      var c := s.calls[k];
      Sys(Act(s.incidents, c.candidates, c.event, window, id, now).1, s.calls[k := c.(acted := true)])
  }

  predicate Feasible(s: Sys, steps: seq<Step>, window: int)
    decreases |steps|
  {
    steps == [] || (Enabled(s, steps[0]) && Feasible(Apply(s, steps[0], window), steps[1..], window))
  }

  function After(s: Sys, steps: seq<Step>, window: int): Sys
    requires Feasible(s, steps, window)
    decreases |steps|
  {
    if steps == [] then s else After(Apply(s, steps[0], window), steps[1..], window)
  }

  /** How many steps come before the first call acts. */
  function FirstFinish(steps: seq<Step>): (f: nat)
    ensures f <= |steps|
  {
    if steps == [] || steps[0].Finish? then 0 else 1 + FirstFinish(steps[1..])
  }

  function Finished(calls: seq<Call>): nat {
    if calls == [] then 0 else Finished(calls[..|calls| - 1]) + if calls[|calls| - 1].acted then 1 else 0
  }

  /**
    An event of a storm for the target of `first`: no older incident covers it, and one created from `latest` on
    does.
   */
  predicate StormEvent(older: seq<Incident>, first: Event, e: Event, window: int, latest: int) {
    Identified(e) && SameTarget(first, e) && e.timestamp - window * 60000 <= latest
    && forall i :: 0 <= i < |older| ==> !Covers(older[i], e, window)
  }

  /** Nothing is created before `latest`. */
  predicate StormStep(older: seq<Incident>, first: Event, window: int, latest: int, step: Step) {
    match step
    case LookUp(e) => StormEvent(older, first, e, window, latest)
    case Finish(_, _, now) => now >= latest
  }

  predicate Fits(inc: Incident, first: Event, latest: int) {
    Open(inc) && inc.tenantId == TenantOf(first) && Lower(inc.service) == Lower(first.service)
    && inc.environment == first.environment && inc.createdAt >= latest
  }

  predicate StormCall(older: seq<Incident>, first: Event, window: int, latest: int, c: Call, early: bool) {
    StormEvent(older, first, c.event, window, latest)
    && if early then c.candidates == [] else c.candidates != [] && c.candidates[0] == |older|
  }

  /** Before the first creation. */
  ghost predicate Early(older: seq<Incident>, first: Event, window: int, latest: int, s: Sys) {
    s.incidents == older
    && forall j :: 0 <= j < |s.calls| ==> StormCall(older, first, window, latest, s.calls[j], true) && !s.calls[j].acted
  }

  /** After it: the first `f` calls had looked up before, all others have found the first new incident. */
  ghost predicate Storming(older: seq<Incident>, first: Event, window: int, latest: int, f: nat, s: Sys) {
    |older| < |s.incidents| && s.incidents[..|older|] == older
    && (forall i :: |older| <= i < |s.incidents| ==> Fits(s.incidents[i], first, latest))
    && (forall i :: |older| < i < |s.incidents| ==> |s.incidents[i].eventIds| == 1)
    && f <= |s.calls|
    && (forall j :: 0 <= j < |s.calls| ==> StormCall(older, first, window, latest, s.calls[j], j < f))
    && |s.incidents| == |older| + Finished(s.calls[..f])
  }

  lemma OpenedFits(older: seq<Incident>, first: Event, e: Event, window: int, latest: int, id: string, now: int)
    requires StormEvent(older, first, e, window, latest) && now >= latest
    ensures Fits(Opened(e, id, now), first, latest)
  {
    hide Covers, Lower;
  }

  lemma FitsCovers(older: seq<Incident>, first: Event, e: Event, window: int, latest: int, inc: Incident)
    requires StormEvent(older, first, e, window, latest) && Fits(inc, first, latest)
    ensures Covers(inc, e, window) && Candidate(inc, e, window) && Takes(inc, e, window)
  {
    hide Lower;
    CoversTakes(inc, e, window);
  }

  lemma {:induction false} FinishedOne(calls: seq<Call>, k: nat)
    requires k < |calls| && !calls[k].acted
    ensures Finished(calls[k := calls[k].(acted := true)]) == Finished(calls) + 1
  {
    var n := |calls| - 1;
    var after := calls[k := calls[k].(acted := true)];
    if k < n {
      FinishedOne(calls[..n], k);
      assert after[..n] == calls[..n][k := calls[k].(acted := true)];
    } else {
      assert after[..n] == calls[..n];
    }
  }

  lemma {:induction false} NoneFinished(calls: seq<Call>)
    requires forall j :: 0 <= j < |calls| ==> !calls[j].acted
    ensures Finished(calls) == 0
  {
    if calls != [] { NoneFinished(calls[..|calls| - 1]); }
  }

  lemma {:induction false} AllFinished(calls: seq<Call>)
    requires forall j :: 0 <= j < |calls| ==> calls[j].acted
    ensures Finished(calls) == |calls|
  {
    if calls != [] { AllFinished(calls[..|calls| - 1]); }
  }

  lemma {:induction false} EarlyLookUp(older: seq<Incident>, first: Event, window: int, latest: int, s: Sys, e: Event)
    requires Early(older, first, window, latest, s) && StormEvent(older, first, e, window, latest)
    ensures Early(older, first, window, latest, Apply(s, LookUp(e), window))
  {
    hide Covers, Candidate, Identified;
    forall i | 0 <= i < |older| ensures !Candidate(older[i], e, window) {
      CoversTakes(older[i], e, window);
    }
    NoCandidates(older, e, window);
  }

  lemma {:induction false} FirstCreation(older: seq<Incident>, first: Event, window: int, latest: int, s: Sys,
      step: Step)
    requires Early(older, first, window, latest, s) && step.Finish? && Enabled(s, step) && step.now >= latest
    ensures Storming(older, first, window, latest, |s.calls|, Apply(s, step, window))
  {
    hide Covers, Takes, Fits, StormEvent, Opened;
    var c := s.calls[step.call];
    assert StormCall(older, first, window, latest, c, true);
    OpenedFits(older, first, c.event, window, latest, step.id, step.now);
    NoneFinished(s.calls);
    FinishedOne(s.calls, step.call);
    var t := Apply(s, step, window);
    assert t.incidents == older + [Opened(c.event, step.id, step.now)];
    assert t.calls == s.calls[step.call := c.(acted := true)] && t.calls[..|s.calls|] == t.calls;
  }

  lemma {:induction false} LateLookUp(older: seq<Incident>, first: Event, window: int, latest: int, f: nat,
      s: Sys, e: Event)
    requires Storming(older, first, window, latest, f, s) && StormEvent(older, first, e, window, latest)
    ensures Storming(older, first, window, latest, f, Apply(s, LookUp(e), window))
  {
    hide Covers, Candidate, Identified, Fits;
    forall i | 0 <= i < |older| ensures !Candidate(s.incidents[i], e, window) {
      assert s.incidents[i] == s.incidents[..|older|][i];
      CoversTakes(older[i], e, window);
    }
    FitsCovers(older, first, e, window, latest, s.incidents[|older|]);
    FirstCandidate(s.incidents, e, window, |older|);
    var t := Apply(s, LookUp(e), window);
    assert t.calls[..f] == s.calls[..f];
  }

  lemma {:induction false} LateFinish(older: seq<Incident>, first: Event, window: int, latest: int, f: nat,
      s: Sys, step: Step)
    requires Storming(older, first, window, latest, f, s) && step.Finish? && Enabled(s, step) && step.now >= latest
    ensures Storming(older, first, window, latest, f, Apply(s, step, window))
  {
    hide Covers, Takes, Candidate, StormEvent;
    var k := step.call;
    var c := s.calls[k];
    var t := Apply(s, step, window);
    if k < f {
      OpenedFits(older, first, c.event, window, latest, step.id, step.now);
      FinishedOne(s.calls[..f], k);
      assert t.calls[..f] == s.calls[..f][k := c.(acted := true)];
    } else {
      FitsCovers(older, first, c.event, window, latest, s.incidents[|older|]);
      assert t.incidents == s.incidents[|older| := Absorb(s.incidents[|older|], c.event)];
      assert t.calls[..f] == s.calls[..f];
    }
  }

  lemma {:induction false} StormingRun(older: seq<Incident>, first: Event, window: int, latest: int, f: nat,
      s: Sys, steps: seq<Step>)
    requires Storming(older, first, window, latest, f, s) && Feasible(s, steps, window)
    requires forall i :: 0 <= i < |steps| ==> StormStep(older, first, window, latest, steps[i])
    ensures Storming(older, first, window, latest, f, After(s, steps, window))
    decreases |steps|
  {
    hide Storming, StormEvent, Apply;
    if steps != [] {
      assert StormStep(older, first, window, latest, steps[0]);
      match steps[0] {
        case LookUp(e) => LateLookUp(older, first, window, latest, f, s, e);
        case Finish(_, _, _) => LateFinish(older, first, window, latest, f, s, steps[0]);
      }
      forall i | 0 <= i < |steps[1..]| ensures StormStep(older, first, window, latest, steps[1..][i]) {
        assert steps[1..][i] == steps[i + 1];
      }
      StormingRun(older, first, window, latest, f, Apply(s, steps[0], window), steps[1..]);
    }
  }

  lemma {:induction false} StormRun(older: seq<Incident>, first: Event, window: int, latest: int, s: Sys,
      steps: seq<Step>)
    requires Early(older, first, window, latest, s) && Feasible(s, steps, window) && FirstFinish(steps) < |steps|
    requires forall i :: 0 <= i < |steps| ==> StormStep(older, first, window, latest, steps[i])
    ensures Storming(older, first, window, latest, |s.calls| + FirstFinish(steps), After(s, steps, window))
    decreases |steps|
  {
    hide Storming, StormEvent, Early, Act, Candidates;
    assert StormStep(older, first, window, latest, steps[0]);
    var t := Apply(s, steps[0], window);
    forall i | 0 <= i < |steps[1..]| ensures StormStep(older, first, window, latest, steps[1..][i]) {
      assert steps[1..][i] == steps[i + 1];
    }
    match steps[0] {
      case LookUp(e) =>
        EarlyLookUp(older, first, window, latest, s, e);
        StormRun(older, first, window, latest, t, steps[1..]);
      case Finish(_, _, _) =>
        FirstCreation(older, first, window, latest, s, steps[0]);
        StormingRun(older, first, window, latest, |s.calls|, t, steps[1..]);
    }
  }

  /**
    How many incidents a storm opens when calls overlap. All calls that looked up before the first creation open
    one each, all later ones join the first of these; so once every call is over there are as many new incidents
    as lookups preceded the first creation, and one exactly when no second lookup did. All but the first hold a
    single event.
   */
  lemma {:induction false} StormOpensPerEarlyLookup(older: seq<Incident>, first: Event, window: int, latest: int,
      steps: seq<Step>)
    requires Feasible(Sys(older, []), steps, window) && FirstFinish(steps) < |steps|
    requires forall i :: 0 <= i < |steps| ==> StormStep(older, first, window, latest, steps[i])
    requires forall j :: 0 <= j < |After(Sys(older, []), steps, window).calls| ==>
               After(Sys(older, []), steps, window).calls[j].acted
    ensures var incidents := After(Sys(older, []), steps, window).incidents;
            |incidents| == |older| + FirstFinish(steps) && older <= incidents
            && (|incidents| == |older| + 1 <==> FirstFinish(steps) == 1)
            && forall i :: |older| < i < |incidents| ==> |incidents[i].eventIds| == 1
  {
    hide StormEvent, Fits;
    var s := After(Sys(older, []), steps, window);
    StormRun(older, first, window, latest, Sys(older, []), steps);
    AllFinished(s.calls[..FirstFinish(steps)]);
  }

  /** Two calls that overlap, with one and the same event, open two incidents. */
  lemma {:induction false} OverlapOpensTwo(e: Event, window: int, now: int) returns (steps: seq<Step>)
    requires Identified(e)
    ensures Feasible(Sys([], []), steps, window)
    ensures After(Sys([], []), steps, window).incidents == [Opened(e, "a", now), Opened(e, "b", now)]
  {
    hide Opened, Identified;
    var s1 := Apply(Sys([], []), LookUp(e), window);
    var s2 := Apply(s1, LookUp(e), window);
    var s3 := Apply(s2, Finish(0, "a", now), window);
    var s4 := Apply(s3, Finish(1, "b", now), window);
    steps := [LookUp(e), LookUp(e), Finish(0, "a", now), Finish(1, "b", now)];
    assert steps[1..] == [LookUp(e), Finish(0, "a", now), Finish(1, "b", now)];
    assert steps[1..][1..] == [Finish(0, "a", now), Finish(1, "b", now)];
    assert steps[1..][1..][1..] == [Finish(1, "b", now)] && steps[1..][1..][1..][1..] == [];
    assert Feasible(s4, [], window) && After(s4, [], window) == s4;
    assert Feasible(s3, [Finish(1, "b", now)], window) && After(s3, [Finish(1, "b", now)], window) == s4;
    assert Feasible(s2, steps[1..][1..], window) && After(s2, steps[1..][1..], window) == s4;
    assert Feasible(s1, steps[1..], window) && After(s1, steps[1..], window) == s4;
  }

  // ---------------------------------------------------------------- what the one incident becomes

  function SeverityRank(s: Severity): nat {
    match s case SEV_1 => 1 case SEV_2 => 2 case SEV_3 => 3 case SEV_4 => 4
  }

  function Demanded(e: Event): nat { if e.severity == CRITICAL then 1 else if e.severity == ERROR then 2 else 4 }

  predicate NoRepeats(ids: seq<string>) {
    forall i, j :: 0 <= i < j < |ids| ==> ids[i] != ids[j]
  }

  function Worst(rank: nat, arrivals: seq<Arrival>): nat {
    if arrivals == [] then rank else Worst(Min(rank, Demanded(arrivals[0].event)), arrivals[1..])
  }

  predicate Arrived(arrivals: seq<Arrival>, id: string) {
    exists k :: 0 <= k < |arrivals| && arrivals[k].event.id == id
  }

  /** Its events have no repeats and are exactly those that arrived; its severity only escalates. */
  lemma {:induction false} AbsorbedHistory(inc: Incident, arrivals: seq<Arrival>)
    requires NoRepeats(inc.eventIds)
    ensures var r := AbsorbAll(inc, arrivals);
            NoRepeats(r.eventIds) && inc.eventIds <= r.eventIds
            && (forall x :: x in r.eventIds <==> x in inc.eventIds || Arrived(arrivals, x))
            && SeverityRank(r.severity) <= SeverityRank(inc.severity)
            && r == inc.(severity := r.severity, eventIds := r.eventIds)
    decreases |arrivals|
  {
    if arrivals != [] {
      var e := arrivals[0].event;
      var next := Absorb(inc, e);
      AbsorbedHistory(next, arrivals[1..]);
      var r := AbsorbAll(inc, arrivals);
      assert e.id in next.eventIds;
      forall x ensures x in r.eventIds <==> x in inc.eventIds || Arrived(arrivals, x) {
        if k :| 0 <= k < |arrivals| - 1 && arrivals[1..][k].event.id == x { assert arrivals[k + 1].event.id == x; }
        if k :| 0 < k < |arrivals| && arrivals[k].event.id == x { assert arrivals[1..][k - 1].event.id == x; }
      }
    }
  }

  /** With distinct event ids the severity ends at the worst that any event demands. */
  lemma {:induction false} AbsorbedSeverity(inc: Incident, arrivals: seq<Arrival>)
    requires forall k :: 0 <= k < |arrivals| ==> arrivals[k].event.id !in inc.eventIds
    requires forall j, k :: 0 <= j < k < |arrivals| ==> arrivals[j].event.id != arrivals[k].event.id
    ensures SeverityRank(AbsorbAll(inc, arrivals).severity) == Worst(SeverityRank(inc.severity), arrivals)
    decreases |arrivals|
  {
    if arrivals != [] {
      AbsorbedSeverity(Absorb(inc, arrivals[0].event), arrivals[1..]);
    }
  }

  lemma {:induction false} WorstBelow(rank: nat, arrivals: seq<Arrival>, k: nat)
    ensures Worst(rank, arrivals) <= rank
    ensures k < |arrivals| ==> Worst(rank, arrivals) <= Demanded(arrivals[k].event)
  {
    if arrivals != [] {
      WorstBelow(Min(rank, Demanded(arrivals[0].event)), arrivals[1..], if k == 0 then 0 else k - 1);
    }
  }

  /** The one incident of a storm is at least as severe as each of its events demands, the first included. */
  lemma {:induction false} StormSeverity(arrivals: seq<Arrival>, k: nat)
    requires k < |arrivals|
    requires forall i, j :: 0 <= i < j < |arrivals| ==> arrivals[i].event.id != arrivals[j].event.id
    ensures var inc := AbsorbAll(Opened(arrivals[0].event, arrivals[0].id, arrivals[0].now), arrivals[1..]);
            SeverityRank(inc.severity) <= Demanded(arrivals[k].event)
            && (SeverityRank(inc.severity) == 3 ==> !Triggering(arrivals[0].event))
  {
    var first := arrivals[0].event;
    var inc := Opened(first, arrivals[0].id, arrivals[0].now);
    AbsorbedSeverity(inc, arrivals[1..]);
    WorstBelow(SeverityRank(inc.severity), arrivals[1..], if k == 0 then 0 else k - 1);
    assert SeverityRank(inc.severity) <= Demanded(first);
  }
}
