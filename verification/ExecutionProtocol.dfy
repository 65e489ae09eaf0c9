/**
  The exactly-one-claim execution protocol as a transition system: the execution rows, the
  clock, and the point that each worker's `performExecution` has reached for each key
  (services/execution-service/src/index.ts with packages/database/src/repository.ts).

  Every step is atomic and the clock is shared. The Kubernetes call that a worker starts may
  outlive the timeout that records UNKNOWN, so calls are tracked apart from the workers.
 */
module ExecutionProtocol {
  import opened ExecutionStore

  const LEASE_MS: nat := 45000

  /** Where one worker's performExecution stands for one key. */
  datatype Phase =
    | Idle
    | Cleared(lease: int)   // past the claim; `lease` is when the worker's own lease ends
    | Live                  // EXECUTING was written, or its loss swallowed; the cluster call runs

  datatype CallState = InFlight | Issued | Ended

  /** One run of executeLive; it issues at most one mutation. */
  datatype Call = Call(worker: string, key: string, state: CallState)

  datatype Sys = Sys(
    now: int,
    rows: Rows,
    phases: map<(string, string), Phase>,
    dead: set<string>,
    calls: seq<Call>,
    grants: map<string, nat>)

  datatype Step =
    | Tick(ms: nat)
    | Claim(worker: string, key: string, tenant: string)
    | ClaimAborted(worker: string, key: string)
    | Refused(worker: string, key: string)               // the incident transition throws
    | Mark(worker: string, key: string, landed: bool)    // start the call; the EXECUTING write may be lost or refused
    | Issue(call: nat)                                   // the cluster mutation
    | GiveUp(call: nat)                                  // the call ends without one
    | Persist(worker: string, key: string, outcome: Status, landed: bool)
    | Crash(worker: string)
    | Reconcile(key: string, outcome: Status)

  const Init := Sys(0, map[], map[], {}, [], map[])

  function PhaseOf(s: Sys, w: string, k: string): Phase {
    if (w, k) in s.phases then s.phases[(w, k)] else Idle
  }

  function GrantsOf(s: Sys, k: string): nat {
    if k in s.grants then s.grants[k] else 0
  }

  predicate Outcome(st: Status) { st == Succeeded || st == Failed || st == Unknown }

  /** How performExecution goes on after the answer of claimExecution. */
  function AfterClaim(r: ClaimResult, w: string, now: int): Phase {
    match r
    case Granted(e) => Cleared(e.leaseUntil)
    case NotNew(e, _) =>
      if Settled(e.status) then Idle
      else Cleared(if e.claimedBy == w then e.leaseUntil else now)   // falls through, holding no lease of its own
    case _ => Idle
  }

  predicate Enabled(s: Sys, step: Step) {
    match step
    case Tick(_) => true
    case Claim(w, k, _) => w !in s.dead && PhaseOf(s, w, k).Idle?
    case ClaimAborted(w, k) => w !in s.dead && PhaseOf(s, w, k).Idle?
    case Refused(w, k) => w !in s.dead && PhaseOf(s, w, k).Cleared?
    case Mark(w, k, _) => w !in s.dead && PhaseOf(s, w, k).Cleared?
    case Issue(i) => i < |s.calls| && s.calls[i].state == InFlight
    case GiveUp(i) => i < |s.calls| && s.calls[i].state == InFlight
    case Persist(w, k, st, _) => w !in s.dead && PhaseOf(s, w, k).Live? && Outcome(st)
    case Crash(w) => true
    case Reconcile(k, st) => k in s.rows && (st == Succeeded || st == Failed)
  }

  function SetStatus(rows: Rows, k: string, st: Status): Rows {
    if k in rows then rows[k := rows[k].(status := st)] else rows
  }

  function EndCalls(calls: seq<Call>, w: string): (r: seq<Call>)
    ensures |r| == |calls|
    ensures forall i :: 0 <= i < |r| ==>
              r[i] == if calls[i].worker == w && calls[i].state == InFlight then calls[i].(state := Ended) else calls[i]
  {
    seq(|calls|, i requires 0 <= i < |calls| =>
      if calls[i].worker == w && calls[i].state == InFlight then calls[i].(state := Ended) else calls[i])
  }

  function Apply(s: Sys, step: Step): Sys
    requires Enabled(s, step)
  {
    match step
    case Tick(ms) => s.(now := s.now + ms)
    case Claim(w, k, tenant) =>
      var (r, rows) := ClaimTransaction(s.rows, k, w, tenant, LEASE_MS, s.now);
      s.(rows := rows,
         phases := s.phases[(w, k) := AfterClaim(r, w, s.now)],
         grants := if r.Granted? then s.grants[k := GrantsOf(s, k) + 1] else s.grants)
    case ClaimAborted(w, k) =>
      s.(phases := s.phases[(w, k) := AfterClaim(ConflictRead(s.rows, k, w, s.now), w, s.now)])
    case Refused(w, k) => s.(phases := s.phases[(w, k) := Idle])
    case Mark(w, k, landed) =>
      s.(rows := if landed then SetStatus(s.rows, k, Executing) else s.rows,
         phases := s.phases[(w, k) := Live],
         calls := s.calls + [Call(w, k, InFlight)])
    case Issue(i) => s.(calls := s.calls[i := s.calls[i].(state := Issued)])
    case GiveUp(i) => s.(calls := s.calls[i := s.calls[i].(state := Ended)])
    case Persist(w, k, st, landed) =>
      s.(rows := if landed then SetStatus(s.rows, k, st) else s.rows, phases := s.phases[(w, k) := Idle])
    case Crash(w) => s.(dead := s.dead + {w}, calls := EndCalls(s.calls, w))
    case Reconcile(k, st) => s.(rows := SetStatus(s.rows, k, st))
  }

  // ---------------------------------------------------------------- runs

  predicate Feasible(s: Sys, steps: seq<Step>)
    decreases |steps|
  {
    steps == [] || (Enabled(s, steps[0]) && Feasible(Apply(s, steps[0]), steps[1..]))
  }

  function After(s: Sys, steps: seq<Step>): Sys
    requires Feasible(s, steps)
    decreases |steps|
  {
    if steps == [] then s else After(Apply(s, steps[0]), steps[1..])
  }

  /** The EXECUTING write lands, and it lands before the worker's own lease ends. */
  predicate Timely(s: Sys, step: Step)
    requires Enabled(s, step)
  {
    step.Mark? ==> step.landed && s.now < PhaseOf(s, step.worker, step.key).lease
  }

  predicate AllTimely(s: Sys, steps: seq<Step>)
    requires Feasible(s, steps)
    decreases |steps|
  {
    steps == [] || (Timely(s, steps[0]) && AllTimely(Apply(s, steps[0]), steps[1..]))
  }

  // ---------------------------------------------------------------- the unconditional invariant

  /** `w` is past the claim for `k` and its lease has not ended. */
  predicate HoldsLease(s: Sys, w: string, k: string) {
    PhaseOf(s, w, k).Cleared? && s.now < PhaseOf(s, w, k).lease
  }

  ghost predicate Inv(s: Sys) {
    // a live lease is the one recorded in the row
    (forall w, k :: HoldsLease(s, w, k) ==>
       k in s.rows && s.rows[k].claimedBy == w && s.rows[k].leaseUntil == PhaseOf(s, w, k).lease)
    && (forall w, k :: !PhaseOf(s, w, k).Idle? ==> k in s.rows)
    && (forall i :: 0 <= i < |s.calls| ==> s.calls[i].key in s.rows)
    && (forall k :: k in s.rows ==> s.rows[k].status == Claimed || Settled(s.rows[k].status))
    // `attempt` counts the granted claims
    && (forall k :: GrantsOf(s, k) == if k in s.rows then s.rows[k].attempt else 0)
  }

  lemma {:induction false} LeaseStep(s: Sys, step: Step, w: string, k: string)
    requires Inv(s) && Enabled(s, step)
    ensures var t := Apply(s, step);
            (HoldsLease(t, w, k) ==> k in t.rows && t.rows[k].claimedBy == w
                                       && t.rows[k].leaseUntil == PhaseOf(t, w, k).lease)
            && (!PhaseOf(t, w, k).Idle? ==> k in t.rows)
  {
    if PhaseOf(s, w, k) == PhaseOf(Apply(s, step), w, k) {
      assert HoldsLease(Apply(s, step), w, k) ==> HoldsLease(s, w, k);
    }
  }

  lemma {:induction false} RowStep(s: Sys, step: Step, k: string)
    requires Inv(s) && Enabled(s, step)
    ensures var t := Apply(s, step);
            (k in s.rows ==> k in t.rows)
            && (k in t.rows ==> t.rows[k].status == Claimed || Settled(t.rows[k].status))
            && GrantsOf(t, k) == if k in t.rows then t.rows[k].attempt else 0
  {
  }

  lemma {:induction false} InvStep(s: Sys, step: Step)
    requires Inv(s) && Enabled(s, step)
    ensures Inv(Apply(s, step))
  {
    hide ClaimTransaction, ConflictRead;
    var t := Apply(s, step);
    forall k { RowStep(s, step, k); }
    forall w, k { LeaseStep(s, step, w, k); }
    forall i | 0 <= i < |t.calls| ensures t.calls[i].key in t.rows {
      if i < |s.calls| { assert s.calls[i].key in s.rows; }
    }
  }

  lemma {:induction false} InvRun(s: Sys, steps: seq<Step>)
    requires Inv(s) && Feasible(s, steps)
    ensures Inv(After(s, steps))
    decreases |steps|
  {
    if steps != [] {
      InvStep(s, steps[0]);
      InvRun(Apply(s, steps[0]), steps[1..]);
    }
  }

  /** In every run no two workers hold an unexpired claim on one key, and `attempt` counts the grants. */
  lemma LeaseExclusive(steps: seq<Step>, k: string, w1: string, w2: string)
    requires Feasible(Init, steps)
    requires HoldsLease(After(Init, steps), w1, k) && HoldsLease(After(Init, steps), w2, k)
    ensures w1 == w2
    ensures k in After(Init, steps).rows && After(Init, steps).rows[k].attempt == GrantsOf(After(Init, steps), k)
  {
    InvRun(Init, steps);
  }

  /** In every run, while one worker holds an unexpired claim, no other gets past its own, aborted or not. */
  lemma HeldLeaseStops(steps: seq<Step>, k: string, v: string, w: string, claim: Step)
    requires Feasible(Init, steps) && HoldsLease(After(Init, steps), v, k) && v != w
    requires claim == ClaimAborted(w, k) || (claim.Claim? && claim.worker == w && claim.key == k)
    requires Enabled(After(Init, steps), claim)
    ensures var t := Apply(After(Init, steps), claim);
            PhaseOf(t, w, k).Idle? && HoldsLease(t, v, k) && t.rows == After(Init, steps).rows
  {
    InvRun(Init, steps);
  }

  /** Once a key has left CLAIMED, no run returns it there. */
  lemma {:induction false} NeverClaimedAgain(s: Sys, steps: seq<Step>, k: string)
    requires Feasible(s, steps) && k in s.rows && s.rows[k].status != Claimed
    ensures k in After(s, steps).rows && After(s, steps).rows[k].status != Claimed
    ensures GrantsOf(After(s, steps), k) == GrantsOf(s, k)
    decreases |steps|
  {
    if steps != [] {
      NeverClaimedAgain(Apply(s, steps[0]), steps[1..], k);
    }
  }

  /** A worker past an aborted claim of its own row still holds the lease it had. */
  lemma OwnLeaseKept(s: Sys, w: string, k: string)
    requires Enabled(s, ClaimAborted(w, k)) && k in s.rows && s.rows[k].status == Claimed && s.rows[k].claimedBy == w
    ensures PhaseOf(Apply(s, ClaimAborted(w, k)), w, k) == Cleared(s.rows[k].leaseUntil)
  {
  }

  /** A crash is always possible, and ends every call of the worker that is in flight. */
  ghost predicate Quiet(s: Sys, w: string) {
    w in s.dead && forall i :: 0 <= i < |s.calls| && s.calls[i].worker == w ==> s.calls[i].state != InFlight
  }

  lemma CrashQuiets(s: Sys, w: string)
    ensures Enabled(s, Crash(w)) && Quiet(Apply(s, Crash(w)), w)
  {
  }

  /** A crashed worker starts nothing and issues nothing any more, in whatever run follows. */
  lemma {:induction false} CrashedStays(s: Sys, steps: seq<Step>, w: string, i: nat)
    requires Quiet(s, w) && Feasible(s, steps) && i < |After(s, steps).calls| && After(s, steps).calls[i].worker == w
    ensures i < |s.calls| && After(s, steps).calls[i] == s.calls[i]
    decreases |steps|
  {
    hide ClaimTransaction, ConflictRead;
    if steps != [] {
      CrashedStays(Apply(s, steps[0]), steps[1..], w, i);
    }
  }

  // ---------------------------------------------------------------- at most one mutation

  /** Each key has at most one cluster call, after which its row is settled and nobody is cleared in time. */
  ghost predicate Once(s: Sys) {
    (forall i, j :: 0 <= i < |s.calls| && 0 <= j < |s.calls| && s.calls[i].key == s.calls[j].key ==> i == j)
    && (forall i :: 0 <= i < |s.calls| ==> s.calls[i].key in s.rows && Settled(s.rows[s.calls[i].key].status))
    && (forall i, w :: 0 <= i < |s.calls| && HoldsLease(s, w, s.calls[i].key) ==> w in s.dead)
  }

  /** A settled key stays settled, and nobody obtains a lease on it any more. */
  lemma {:induction false} SettledStep(s: Sys, step: Step, k: string, w: string)
    requires Enabled(s, step) && k in s.rows && Settled(s.rows[k].status)
    ensures k in Apply(s, step).rows && Settled(Apply(s, step).rows[k].status)
    ensures HoldsLease(Apply(s, step), w, k) ==> HoldsLease(s, w, k)
  {
  }

  lemma {:induction false} OnceStep(s: Sys, step: Step)
    requires Inv(s) && Once(s) && Enabled(s, step) && Timely(s, step)
    ensures Once(Apply(s, step))
  {
    hide ClaimTransaction, ConflictRead;
    var t := Apply(s, step);
    if step.Mark? {
      assert HoldsLease(s, step.worker, step.key);
    }
    forall i, w | 0 <= i < |t.calls|
      ensures t.calls[i].key in t.rows && Settled(t.rows[t.calls[i].key].status)
      ensures HoldsLease(t, w, t.calls[i].key) ==> w in t.dead
    {
      var k := t.calls[i].key;
      if i < |s.calls| {
        SettledStep(s, step, k, w);
      } else {
        assert HoldsLease(t, w, k) ==> HoldsLease(s, w, k);
      }
    }
  }

  lemma {:induction false} OnceRun(s: Sys, steps: seq<Step>)
    requires Inv(s) && Once(s) && Feasible(s, steps) && AllTimely(s, steps)
    ensures Inv(After(s, steps)) && Once(After(s, steps))
    decreases |steps|
  {
    if steps != [] {
      InvStep(s, steps[0]);
      OnceStep(s, steps[0]);
      OnceRun(Apply(s, steps[0]), steps[1..]);
    }
  }

  /** In every run whose EXECUTING writes land in time, a key is mutated at most once, hence by at most one worker. */
  lemma AtMostOneMutation(steps: seq<Step>, i: nat, j: nat)
    requires Feasible(Init, steps) && AllTimely(Init, steps)
    requires i < |After(Init, steps).calls| && j < |After(Init, steps).calls|
    requires After(Init, steps).calls[i].state == Issued && After(Init, steps).calls[j].state == Issued
    requires After(Init, steps).calls[i].key == After(Init, steps).calls[j].key
    ensures i == j
  {
    OnceRun(Init, steps);
  }

  // ---------------------------------------------------------------- exactly when a mark is safe

  ghost predicate OneCall(s: Sys, k: string) {
    forall i, j :: 0 <= i < |s.calls| && 0 <= j < |s.calls| && s.calls[i].key == k && s.calls[j].key == k ==> i == j
  }

  /** No timely continuation ever starts a second cluster call for `k`. */
  ghost predicate SafeFrom(s: Sys, k: string) {
    forall steps :: Feasible(s, steps) && AllTimely(s, steps) ==> OneCall(After(s, steps), k)
  }

  /** The row says so or the key was settled before; no call exists; no other live worker holds the lease. */
  ghost predicate SafeToMark(s: Sys, w: string, k: string, landed: bool) {
    k in s.rows && (landed || Settled(s.rows[k].status))
    && (forall i :: 0 <= i < |s.calls| ==> s.calls[i].key != k)
    && (forall v :: v != w && HoldsLease(s, v, k) ==> v in s.dead)
  }

  lemma {:induction false} SafeMark(s: Sys, w: string, k: string, landed: bool)
    requires Inv(s) && Once(s) && Enabled(s, Mark(w, k, landed)) && SafeToMark(s, w, k, landed)
    ensures SafeFrom(Apply(s, Mark(w, k, landed)), k)
  {
    var t := Apply(s, Mark(w, k, landed));
    InvStep(s, Mark(w, k, landed));
    forall i, v | 0 <= i < |t.calls| && HoldsLease(t, v, t.calls[i].key) ensures v in t.dead {
      assert HoldsLease(s, v, t.calls[i].key);
    }
    assert Once(t);
    forall steps | Feasible(t, steps) && AllTimely(t, steps) ensures OneCall(After(t, steps), k) {
      OnceRun(t, steps);
    }
  }

  lemma {:induction false} SingleStep(s: Sys, step: Step)
    requires Enabled(s, step) && Timely(s, step)
    ensures Feasible(s, [step]) && AllTimely(s, [step]) && After(s, [step]) == Apply(s, step)
  {
    var t := Apply(s, step);
    assert [step][1..] == [];
    assert Feasible(t, []) && AllTimely(t, []) && After(t, []) == t;
  }

  lemma {:induction false} Chain(s: Sys, step: Step, steps: seq<Step>)
    requires Enabled(s, step) && Feasible(Apply(s, step), steps)
    ensures Feasible(s, [step] + steps) && After(s, [step] + steps) == After(Apply(s, step), steps)
    ensures Timely(s, step) && AllTimely(Apply(s, step), steps) ==> AllTimely(s, [step] + steps)
  {
    assert ([step] + steps)[1..] == steps;
  }

  /** A second worker takes the key over after the first one's write was lost. */
  lemma {:induction false} TakeOver(t: Sys, v: string, k: string) returns (steps: seq<Step>)
    requires Inv(t) && k in t.rows && t.rows[k].status == Claimed
    requires v !in t.dead && PhaseOf(t, v, k).Idle?
    requires exists i :: 0 <= i < |t.calls| && t.calls[i].key == k
    ensures Feasible(t, steps) && AllTimely(t, steps) && !OneCall(After(t, steps), k)
    ensures After(t, steps).calls == t.calls + [Call(v, k, InFlight)]
  {
    var i :| 0 <= i < |t.calls| && t.calls[i].key == k;
    var ms: nat := if t.rows[k].leaseUntil > t.now then t.rows[k].leaseUntil - t.now else 0;
    var t1 := Apply(t, Tick(ms));
    var t2 := Apply(t1, Claim(v, k, ""));
    assert PhaseOf(t2, v, k) == Cleared(t1.now + LEASE_MS);
    var t3 := Apply(t2, Mark(v, k, true));
    assert t3.calls[i].key == k && t3.calls[|t.calls|].key == k;
    SingleStep(t2, Mark(v, k, true));
    Chain(t1, Claim(v, k, ""), [Mark(v, k, true)]);
    steps := [Claim(v, k, "")] + [Mark(v, k, true)];
    Chain(t, Tick(ms), steps);
    steps := [Tick(ms)] + steps;
  }

  /**
    A mark, timely or not, is safe exactly when the key was free of calls, no other live worker
    holds the lease, and the write lands (or the key had been settled by a reconciliation).
    `v` is any other worker that is up and idle.
   */
  lemma {:induction false} MarkSafeIff(s: Sys, w: string, k: string, landed: bool, v: string)
    requires Inv(s) && Once(s) && Enabled(s, Mark(w, k, landed))
    requires v != w && v !in s.dead && PhaseOf(s, v, k).Idle?
    ensures SafeFrom(Apply(s, Mark(w, k, landed)), k) <==> SafeToMark(s, w, k, landed)
  {
    var t := Apply(s, Mark(w, k, landed));
    InvStep(s, Mark(w, k, landed));
    if SafeToMark(s, w, k, landed) {
      SafeMark(s, w, k, landed);
    } else if i :| 0 <= i < |s.calls| && s.calls[i].key == k {
      assert t.calls[i].key == k && t.calls[|s.calls|].key == k;
      assert Feasible(t, []) && AllTimely(t, []) && !OneCall(After(t, []), k);
    } else if u :| u != w && HoldsLease(s, u, k) && u !in s.dead {
      SingleStep(t, Mark(u, k, true));
      var t1 := Apply(t, Mark(u, k, true));
      assert t1.calls[|s.calls|].key == k && t1.calls[|s.calls| + 1].key == k;
      assert !OneCall(After(t, [Mark(u, k, true)]), k);
    } else {
      assert t.calls[|s.calls|].key == k;
      var steps := TakeOver(t, v, k);
    }
  }

  // ---------------------------------------------------------------- exactly when a mutation is safe

  /** A call that has issued its mutation, or still may. */
  predicate Active(c: Call) { c.state != Ended }

  /** As `Once`, but calls that ended without a mutation do not count. */
  ghost predicate ActiveOnce(s: Sys) {
    (forall i, j :: 0 <= i < |s.calls| && 0 <= j < |s.calls| && Active(s.calls[i]) && Active(s.calls[j]) ==>
       s.calls[i].key == s.calls[j].key ==> i == j)
    && (forall i :: 0 <= i < |s.calls| ==> s.calls[i].key in s.rows && Settled(s.rows[s.calls[i].key].status))
    && (forall i, w :: 0 <= i < |s.calls| && HoldsLease(s, w, s.calls[i].key) ==> w in s.dead)
  }

  lemma {:induction false} ActiveStep(s: Sys, step: Step)
    requires Inv(s) && ActiveOnce(s) && Enabled(s, step) && Timely(s, step)
    ensures ActiveOnce(Apply(s, step))
  {
    hide ClaimTransaction, ConflictRead;
    var t := Apply(s, step);
    if step.Mark? {
      assert HoldsLease(s, step.worker, step.key);
    }
    forall i, w | 0 <= i < |t.calls|
      ensures t.calls[i].key in t.rows && Settled(t.rows[t.calls[i].key].status)
      ensures HoldsLease(t, w, t.calls[i].key) ==> w in t.dead
    {
      var k := t.calls[i].key;
      if i < |s.calls| {
        SettledStep(s, step, k, w);
      } else {
        assert HoldsLease(t, w, k) ==> HoldsLease(s, w, k);
      }
    }
  }

  lemma {:induction false} ActiveRun(s: Sys, steps: seq<Step>)
    requires Inv(s) && ActiveOnce(s) && Feasible(s, steps) && AllTimely(s, steps)
    ensures ActiveOnce(After(s, steps))
    decreases |steps|
  {
    hide Inv, ActiveOnce;
    if steps != [] {
      InvStep(s, steps[0]);
      ActiveStep(s, steps[0]);
      ActiveRun(Apply(s, steps[0]), steps[1..]);
    }
  }

  predicate Mutated(c: Call, k: string) { c.key == k && c.state == Issued }

  ghost predicate OneMutation(s: Sys, k: string) {
    forall i, j ::
      0 <= i < |s.calls| && 0 <= j < |s.calls| && Mutated(s.calls[i], k) && Mutated(s.calls[j], k) ==> i == j
  }

  /** No timely continuation ever issues a second mutation of `k`. */
  ghost predicate MutatesOnceFrom(s: Sys, k: string) {
    forall steps :: Feasible(s, steps) && AllTimely(s, steps) ==> OneMutation(After(s, steps), k)
  }

  /** As `SafeToMark`, but a call that ended without a mutation does not stand in the way. */
  ghost predicate SafeToMutate(s: Sys, w: string, k: string, landed: bool) {
    k in s.rows && (landed || Settled(s.rows[k].status))
    && (forall i :: 0 <= i < |s.calls| && s.calls[i].key == k ==> !Active(s.calls[i]))
    && (forall v :: v != w && HoldsLease(s, v, k) ==> v in s.dead)
  }

  lemma {:induction false} SafeMutation(s: Sys, w: string, k: string, landed: bool)
    requires Inv(s) && Once(s) && Enabled(s, Mark(w, k, landed)) && SafeToMutate(s, w, k, landed)
    ensures MutatesOnceFrom(Apply(s, Mark(w, k, landed)), k)
  {
    var t := Apply(s, Mark(w, k, landed));
    InvStep(s, Mark(w, k, landed));
    forall i, v | 0 <= i < |t.calls| && HoldsLease(t, v, t.calls[i].key) ensures v in t.dead {
      assert HoldsLease(s, v, t.calls[i].key);
    }
    assert ActiveOnce(t);
    forall steps | Feasible(t, steps) && AllTimely(t, steps) ensures OneMutation(After(t, steps), k) {
      ActiveRun(t, steps);
    }
  }

  /** Two active calls of one key may both issue their mutations. */
  lemma {:induction false} BothIssue(t: Sys, k: string, i: nat, j: nat) returns (steps: seq<Step>)
    requires i < j < |t.calls| && t.calls[i].key == k && t.calls[j].key == k && Active(t.calls[i])
    requires t.calls[j].state == InFlight
    ensures Feasible(t, steps) && AllTimely(t, steps) && !OneMutation(After(t, steps), k)
  {
    hide ClaimTransaction, ConflictRead;
    if t.calls[i].state == InFlight {
      var t1 := Apply(t, Issue(i));
      var t2 := Apply(t1, Issue(j));
      assert Mutated(t2.calls[i], k) && Mutated(t2.calls[j], k);
      SingleStep(t1, Issue(j));
      Chain(t, Issue(i), [Issue(j)]);
      steps := [Issue(i)] + [Issue(j)];
    } else {
      var t1 := Apply(t, Issue(j));
      assert Mutated(t1.calls[i], k) && Mutated(t1.calls[j], k);
      SingleStep(t, Issue(j));
      steps := [Issue(j)];
    }
  }

  lemma {:induction false} RunThen(s: Sys, first: seq<Step>, rest: seq<Step>)
    requires Feasible(s, first) && AllTimely(s, first) && Feasible(After(s, first), rest)
    requires AllTimely(After(s, first), rest)
    ensures Feasible(s, first + rest) && AllTimely(s, first + rest)
    ensures After(s, first + rest) == After(After(s, first), rest)
    decreases |first|
  {
    hide Enabled, Apply, Timely;
    if first == [] {
      assert first + rest == rest;
    } else {
      assert (first + rest)[1..] == first[1..] + rest;
      RunThen(Apply(s, first[0]), first[1..], rest);
    }
  }

  /**
    A mark, timely or not, is safe for the cluster, so that no second mutation can follow, exactly when no other
    call of the key has issued or still may, no other live worker holds the lease, and the write lands (or the
    key had been settled). `v` is any other worker that is up and idle.
   */
  lemma {:induction false} MutationSafeIff(s: Sys, w: string, k: string, landed: bool, v: string)
    requires Inv(s) && Once(s) && Enabled(s, Mark(w, k, landed))
    requires v != w && v !in s.dead && PhaseOf(s, v, k).Idle?
    ensures MutatesOnceFrom(Apply(s, Mark(w, k, landed)), k) <==> SafeToMutate(s, w, k, landed)
  {
    hide ClaimTransaction, ConflictRead;
    var t := Apply(s, Mark(w, k, landed));
    var n := |s.calls|;
    InvStep(s, Mark(w, k, landed));
    if SafeToMutate(s, w, k, landed) {
      SafeMutation(s, w, k, landed);
    } else if i :| 0 <= i < n && s.calls[i].key == k && Active(s.calls[i]) {
      var steps := BothIssue(t, k, i, n);
    } else if u :| u != w && HoldsLease(s, u, k) && u !in s.dead {
      var t1 := Apply(t, Mark(u, k, true));
      SingleStep(t, Mark(u, k, true));
      var issues := BothIssue(t1, k, n, n + 1);
      RunThen(t, [Mark(u, k, true)], issues);
    } else {
      assert t.calls[n].key == k;
      var first := TakeOver(t, v, k);
      var issues := BothIssue(After(t, first), k, n, n + 1);
      RunThen(t, first, issues);
    }
  }

  /** A timely mark is always safe: this is what the lease is for. */
  lemma TimelyMarkSafe(s: Sys, w: string, k: string)
    requires Inv(s) && Once(s) && Enabled(s, Mark(w, k, true)) && Timely(s, Mark(w, k, true))
    ensures SafeToMark(s, w, k, true)
  {
    assert HoldsLease(s, w, k);
  }

  /** Two issued mutations of one key. */
  predicate Duplicated(s: Sys, k: string) {
    |s.calls| == 2 && s.calls[0] == Call("a", k, Issued) && s.calls[1] == Call("b", k, Issued)
  }

  /** The first hypothesis is needed: after a lost write two workers mutate one key. */
  lemma {:induction false} LostMarkDuplicates(k: string) returns (lost: seq<Step>)
    ensures Feasible(Init, lost) && Duplicated(After(Init, lost), k)
  {
    var ca, cb, tick := Claim("a", k, ""), Claim("b", k, ""), Tick(45000);
    var s1 := Apply(Init, ca);
    assert PhaseOf(s1, "a", k) == Cleared(45000) && PhaseOf(s1, "b", k).Idle?;
    var s2 := Apply(s1, Mark("a", k, false));
    var s3 := Apply(s2, tick);
    var s4 := Apply(s3, cb);
    var s5 := Apply(s4, Mark("b", k, true));
    var s6 := Apply(s5, Issue(0));
    Chain(s6, Issue(1), []);
    Chain(s5, Issue(0), [Issue(1)]);
    Chain(s4, Mark("b", k, true), [Issue(0)] + [Issue(1)]);
    lost := [Mark("b", k, true)] + ([Issue(0)] + [Issue(1)]);
    Chain(s3, cb, lost);
    Chain(s2, tick, [cb] + lost);
    Chain(s1, Mark("a", k, false), [tick] + ([cb] + lost));
    Chain(Init, ca, [Mark("a", k, false)] + ([tick] + ([cb] + lost)));
    lost := [ca] + ([Mark("a", k, false)] + ([tick] + ([cb] + lost)));
  }

  /** So is the second: every write may land and two workers still mutate one key. */
  lemma {:induction false} LateMarkDuplicates(k: string) returns (late: seq<Step>)
    ensures Feasible(Init, late) && Duplicated(After(Init, late), k)
    ensures forall s :: s in late && s.Mark? ==> s.landed
  {
    var ca, cb, tick := Claim("a", k, ""), Claim("b", k, ""), Tick(45000);
    var s1 := Apply(Init, ca);
    assert PhaseOf(s1, "a", k) == Cleared(45000) && PhaseOf(s1, "b", k).Idle?;
    var t2 := Apply(s1, tick);
    var t3 := Apply(t2, cb);
    var t4 := Apply(t3, Mark("a", k, true));
    var t5 := Apply(t4, Mark("b", k, true));
    var t6 := Apply(t5, Issue(0));
    Chain(t6, Issue(1), []);
    Chain(t5, Issue(0), [Issue(1)]);
    Chain(t4, Mark("b", k, true), [Issue(0)] + [Issue(1)]);
    late := [Mark("b", k, true)] + ([Issue(0)] + [Issue(1)]);
    Chain(t3, Mark("a", k, true), late);
    Chain(t2, cb, [Mark("a", k, true)] + late);
    Chain(s1, tick, [cb] + ([Mark("a", k, true)] + late));
    Chain(Init, ca, [tick] + ([cb] + ([Mark("a", k, true)] + late)));
    late := [ca] + ([tick] + ([cb] + ([Mark("a", k, true)] + late)));
  }
}
