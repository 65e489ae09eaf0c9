/**
  An execution, and a reconciliation, as runs of the protocol: what the service does to the rows in one call
  (services/execution-service/src/index.ts) is what a run of protocol steps does to them, up to the two columns that
  the protocol does not keep. So what the protocol's runs guarantee is about the service.
 */
module ExecutionRefinement {
  import opened Wrappers
  import opened ExecutionStore
  import P = ExecutionProtocol
  import S = ExecutionService

  /** A row without the observed hash and the error code. */
  function Bare(e: Execution): Execution { e.(observedStateHash := None, errorCode := None) }

  predicate Alike(a: Rows, b: Rows) {
    a.Keys == b.Keys && forall k :: k in a ==> Bare(a[k]) == Bare(b[k])
  }

  /** The steps of one call: the claim, and then what follows on it. */
  function ClaimStep(w: S.World, job: S.Job, env: S.Environment): P.Step
    requires job.incidentId in w.incidents
  {
    if env.claimAborted then P.ClaimAborted(job.worker, job.key)
    else P.Claim(job.worker, job.key, S.TenantOf(w, job))
  }

  /** The write of a row reaches it if it reaches the database and the row is of the caller's tenant. */
  predicate Lands(rows: Rows, job: S.Job, tenant: string, lands: bool) {
    lands && job.key in rows && rows[job.key].tenantId == tenant
  }

  /** The call ends with a mutation, or without one, or outlives the timeout. */
  function CallSteps(live: S.LiveOutcome, call: nat): seq<P.Step> {
    match live
    case Returned(success, _, _) => if success then [P.Issue(call)] else [P.GiveUp(call)]
    case Threw(timedOut) => if timedOut then [] else [P.GiveUp(call)]
  }

  function ExecutionSteps(job: S.Job, tenant: string, env: S.Environment, rows: Rows, call: nat): seq<P.Step> {
    [P.Mark(job.worker, job.key, Lands(rows, job, tenant, env.markLands))]
    + (CallSteps(env.live, call)
       + [P.Persist(job.worker, job.key, S.RowStatusOf(S.StatusOf(env.live)),
                    Lands(rows, job, tenant, env.persistLands))])
  }

  function PerformSteps(w: S.World, job: S.Job, env: S.Environment, call: nat): seq<P.Step> {
    if !S.ReachesClaim(w, job, env) then []
    else
      var rows := S.ClaimFor(w, job, S.TenantOf(w, job), env).1;
      [ClaimStep(w, job, env)]
      + if !S.ClaimPasses(w, job, env) then []
        else if !S.Startable(w, job) then [P.Refused(job.worker, job.key)]
        else ExecutionSteps(job, S.TenantOf(w, job), env, rows, call)
  }

  /** The writes of one execution are those of its mark and its outcome. */
  lemma RecordAlike(rows: Rows, key: string, tenant: string, env: S.Environment)
    requires key in rows
    ensures var own := rows[key].tenantId == tenant;
            var marked := if env.markLands && own then P.SetStatus(rows, key, Executing) else rows;
            var kept := if env.persistLands && own
                        then P.SetStatus(marked, key, S.RowStatusOf(S.StatusOf(env.live))) else marked;
            Alike(S.Record(rows, key, tenant, env), kept)
  {
  }

  lemma {:induction false} ExecutionRun(s: P.Sys, job: S.Job, tenant: string, env: S.Environment)
    requires job.worker !in s.dead && P.PhaseOf(s, job.worker, job.key).Cleared? && job.key in s.rows
    ensures var steps := ExecutionSteps(job, tenant, env, s.rows, |s.calls|);
            P.Feasible(s, steps)
            && var t := P.After(s, steps);
               Alike(S.Record(s.rows, job.key, tenant, env), t.rows) && P.PhaseOf(t, job.worker, job.key).Idle?
               && |t.calls| == |s.calls| + 1
               && t.calls[|s.calls|] == P.Call(job.worker, job.key,
                    if env.live == S.Threw(true) then P.InFlight
                    else if env.live.Returned? && env.live.success then P.Issued
                    else P.Ended)
  {
    var n := |s.calls|;
    var mark := P.Mark(job.worker, job.key, Lands(s.rows, job, tenant, env.markLands));
    var persist := P.Persist(job.worker, job.key, S.RowStatusOf(S.StatusOf(env.live)),
                             Lands(s.rows, job, tenant, env.persistLands));
    var calls := CallSteps(env.live, n);
    var s1 := P.Apply(s, mark);
    RecordAlike(s.rows, job.key, tenant, env);
    if calls == [] {
      P.Chain(s1, persist, []);
      assert calls + [persist] == [persist] + [];
    } else {
      var s2 := P.Apply(s1, calls[0]);
      P.Chain(s2, persist, []);
      P.Chain(s1, calls[0], [persist]);
      assert [persist] + [] == [persist] && calls + [persist] == [calls[0]] + [persist];
    }
    P.Chain(s, mark, calls + [persist]);
  }

  /**
    One uninterrupted call is a run of the protocol that ends with the worker idle, with the rows the service
    leaves, and with a cluster call started exactly if the service started one; that call has issued its
    mutation exactly if it returned a success, and goes on exactly if it was given up by the timeout.
   */
  lemma {:induction false} PerformIsARun(s: P.Sys, w: S.World, job: S.Job, env: S.Environment)
    requires s.rows == w.rows && s.now == env.claimClock
    requires job.worker !in s.dead && P.PhaseOf(s, job.worker, job.key).Idle?
    ensures var steps := PerformSteps(w, job, env, |s.calls|);
            P.Feasible(s, steps)
            && var t := P.After(s, steps);
               Alike(S.Perform(w, job, env).1.rows, t.rows) && P.PhaseOf(t, job.worker, job.key).Idle?
               && |t.calls| == |s.calls| + (if S.CallsCluster(w, job, env) then 1 else 0)
               && (S.CallsCluster(w, job, env) ==>
                     (t.calls[|s.calls|].state.Issued? <==> env.live.Returned? && env.live.success)
                     && (t.calls[|s.calls|].state.InFlight? <==> env.live == S.Threw(true)))
  {
    if S.ReachesClaim(w, job, env) {
      var tenant := S.TenantOf(w, job);
      var rows := S.ClaimFor(w, job, tenant, env).1;
      var s1 := P.Apply(s, ClaimStep(w, job, env));
      ClaimAlike(s, w, job, env);
      PerformRows(w, job, env);
      if !S.ClaimPasses(w, job, env) {
        P.Chain(s, ClaimStep(w, job, env), []);
      } else if !S.Startable(w, job) {
        P.Chain(s1, P.Refused(job.worker, job.key), []);
        P.Chain(s, ClaimStep(w, job, env), [P.Refused(job.worker, job.key)]);
        assert [P.Refused(job.worker, job.key)] + [] == [P.Refused(job.worker, job.key)];
      } else {
        ExecutionRun(s1, job, tenant, env);
        P.Chain(s, ClaimStep(w, job, env), ExecutionSteps(job, tenant, env, rows, |s.calls|));
      }
    } else {
      PerformRows(w, job, env);
    }
  }

  /** The claim of the service is the claim of the protocol. */
  lemma ClaimAlike(s: P.Sys, w: S.World, job: S.Job, env: S.Environment)
    requires s.rows == w.rows && s.now == env.claimClock && S.ReachesClaim(w, job, env)
    requires job.worker !in s.dead && P.PhaseOf(s, job.worker, job.key).Idle?
    ensures P.Enabled(s, ClaimStep(w, job, env))
    ensures var t := P.Apply(s, ClaimStep(w, job, env));
            t.rows == S.ClaimFor(w, job, S.TenantOf(w, job), env).1 && t.calls == s.calls && t.dead == s.dead
            && (P.PhaseOf(t, job.worker, job.key).Cleared? <==> S.ClaimPasses(w, job, env))
            && (P.PhaseOf(t, job.worker, job.key).Idle? <==> !S.ClaimPasses(w, job, env))
            && (S.ClaimPasses(w, job, env) ==> job.key in t.rows)
  {
  }

  /** The rows that one call leaves. */
  lemma PerformRows(w: S.World, job: S.Job, env: S.Environment)
    ensures S.Perform(w, job, env).1.rows ==
            if !S.ReachesClaim(w, job, env) || !S.ClaimPasses(w, job, env) then w.rows
            else
              var tenant := S.TenantOf(w, job);
              var rows := S.ClaimFor(w, job, tenant, env).1;
              if S.Startable(w, job) then S.Record(rows, job.key, tenant, env) else rows
  {
  }

  /** A reconciliation leaves the rows alone, or is the step of the protocol that settles the key by what was read. */
  lemma ReconcileIsAStep(s: P.Sys, incidents: S.Db.Incidents, job: S.ReconcileJob, live: S.LiveRead, faults: S.Faults,
      now: int)
    ensures var rows := S.Reconcile(s.rows, incidents, job, live, faults, now).1;
            rows == s.rows || SettledBy(s, job.key, Succeeded, rows) || SettledBy(s, job.key, Failed, rows)
  {
  }

  predicate SettledBy(s: P.Sys, key: string, outcome: Status, rows: Rows) {
    P.Enabled(s, P.Reconcile(key, outcome)) && Alike(rows, P.Apply(s, P.Reconcile(key, outcome)).rows)
  }
}
