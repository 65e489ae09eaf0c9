/**
  One execution and its reconciliation (services/execution-service/src/index.ts:
  performExecution, reconcileExecution), run against the database repository.

  The cluster call is an input, as are the I/O faults whose errors the code swallows.
 */
module ExecutionService {
  import opened Wrappers
  import opened Lifecycle
  import opened ExecutionStore
  import Db = IncidentDb

  datatype ProposalStatus =
    | Proposed | PendingApproval | Approved | Rejected | InExecution | Success | ProposalFailed | Verified

  class Proposal {
    var status: ProposalStatus
    const idempotencyKey: string
    const expiresAt: Option<int>

    constructor (key: string, status: ProposalStatus, expiresAt: Option<int>)
      ensures this.idempotencyKey == key && this.status == status && this.expiresAt == expiresAt
    {
      this.idempotencyKey := key;
      this.status := status;
      this.expiresAt := expiresAt;
    }
  }

  datatype ResultStatus = SUCCESS | FAILURE | AMBIGUOUS | EXPIRY

  datatype ExecutionResult =
    ExecutionResult(status: ResultStatus, observedStateHash: Option<string>, errorCode: Option<string>)

  /** Why a call throws: what the errors say, or which write was lost. */
  datatype Reason =
    | NoIncident | ForeignTenant | NotApproved | Leased | ClaimLost | NotStartable | NoTimeline | NotMoved

  datatype Settlement = Fulfilled(result: ExecutionResult) | RejectedWith(reason: Reason)

  /** How the race between executeLive and the timeout ends. */
  datatype LiveOutcome =
    | Returned(success: bool, hash: Option<string>, code: Option<string>)
    | Threw(timedOut: bool)

  /** Which writes reach the database, and the clock at the two places it is read. */
  datatype Environment = Environment(
    expiryClock: int,
    claimClock: int,
    claimAborted: bool,
    markLands: bool,
    persistLands: bool,
    timelineLands: bool,
    transitionLands: bool,
    live: LiveOutcome)

  function FirstTenant(contextTenant: string, optionTenant: string, incidentTenant: string): string {
    if contextTenant != "" then contextTenant
    else if optionTenant != "" then optionTenant
    else if incidentTenant != "" then incidentTenant
    else "tenant-eu-default"
  }

  function StatusOf(live: LiveOutcome): ResultStatus {
    match live
    case Returned(success, _, _) => if success then SUCCESS else FAILURE
    case Threw(timedOut) => if timedOut then AMBIGUOUS else FAILURE
  }

  function RowStatusOf(s: ResultStatus): Status {
    match s
    case SUCCESS => Succeeded
    case AMBIGUOUS => Unknown
    case _ => Failed
  }

  function StateOf(s: ResultStatus): State {
    match s
    case SUCCESS => VERIFYING
    case AMBIGUOUS => UNKNOWN
    case _ => EXECUTION_FAILED
  }

  /** The answer, the execution row and the incident tell the same story. */
  predicate ThreeWay(result: ResultStatus, row: Status, state: State) {
    || (result == SUCCESS && row == Succeeded && state == VERIFYING)
    || (result == AMBIGUOUS && row == Unknown && state == UNKNOWN)
    || (result == FAILURE && row == Failed && state == EXECUTION_FAILED)
  }

  function Replay(e: Execution): ExecutionResult
    requires Settled(e.status)
  {
    match e.status
    case Succeeded => ExecutionResult(SUCCESS, None, None)
    case Failed =>
      ExecutionResult(FAILURE, None,
          if e.errorCode.Some? && e.errorCode.value != "" then e.errorCode else Some("EXECUTION_FAILED"))
    case _ => ExecutionResult(AMBIGUOUS, None, Some("RECONCILIATION_REQUIRED"))
  }

  /** Everything an execution writes. */
  datatype World = World(rows: Rows, incidents: Db.Incidents, proposal: ProposalStatus)

  datatype Job = Job(
    incidentId: string,
    key: string,
    worker: string,
    contextTenant: string,
    optionTenant: string,
    expiresAt: Option<int>)

  function TenantOf(w: World, job: Job): string
    requires job.incidentId in w.incidents
  {
    FirstTenant(job.contextTenant, job.optionTenant, w.incidents[job.incidentId].tenantId)
  }

  function NoVersion(tenant: string): Db.Options { Db.Options(tenant, None) }

  function ProposalAfter(status: ResultStatus): ProposalStatus {
    if status == SUCCESS then Success else if status == AMBIGUOUS then InExecution else ProposalFailed
  }

  function OutcomeUpdate(live: LiveOutcome): Update {
    Update(RowStatusOf(StatusOf(live)), ResultOf(live).observedStateHash, ResultOf(live).errorCode)
  }

  function ResultOf(live: LiveOutcome): ExecutionResult {
    match live
    case Returned(_, hash, code) => ExecutionResult(StatusOf(live), hash, code)
    case Threw(timedOut) =>
      ExecutionResult(StatusOf(live), None, Some(if timedOut then "UNKNOWN_EXTERNAL_OUTCOME" else "EXECUTION_FAILED"))
  }

  /** The closing updateIncident, with the snapshot of the incident taken at the start. */
  function CloseIncident(incidents: Db.Incidents, id: string, snapshot: Db.IncidentRow): Db.Incidents {
    Db.Store(incidents, id,
      Db.UpdateRow(Db.Find(incidents, id), snapshot.state, snapshot.severity, snapshot.mttrSeconds))
  }

  /** Step 6: the incident follows the outcome; a refused failure is escalated, a refused success rejects. */
  function Settle(incidents: Db.Incidents, id: string, tenant: string, env: Environment, snapshot: Db.IncidentRow)
    : (Settlement, Db.Incidents)
  {
    var status := StatusOf(env.live);
    var moved := Db.TransitionRow(Db.Find(incidents, id), StateOf(status), NoVersion(tenant), env.claimClock);
    if status == SUCCESS && (!env.transitionLands || moved.Err?) then (RejectedWith(NotMoved), incidents)
    else
      var after :=
        if !env.transitionLands then incidents
        else if moved.Err? then Db.Transition(incidents, id, ESCALATED, NoVersion(tenant), env.claimClock)
        else Db.Store(incidents, id, moved);
      (Fulfilled(ResultOf(env.live)), CloseIncident(after, id, snapshot))
  }

  /** Steps 4 and 5: the row is marked, then given its outcome; failures of both writes are swallowed. */
  function Record(rows: Rows, key: string, tenant: string, env: Environment): Rows {
    var marked := if env.markLands then UpdateRows(rows, tenant, key, Update(Executing, None, None)) else rows;
    if env.persistLands then UpdateRows(marked, tenant, key, OutcomeUpdate(env.live)) else marked
  }

  /** Steps 3 to 6, once the claim lets the execution through. */
  function Execute(w: World, job: Job, tenant: string, env: Environment): (Settlement, World)
    requires job.incidentId in w.incidents
  {
    var id := job.incidentId;
    var started := Db.TransitionRow(Db.Find(w.incidents, id), EXECUTING, NoVersion(tenant), env.claimClock);
    if started.Err? then (RejectedWith(NotStartable), w)
    else
      var rows := Record(w.rows, job.key, tenant, env);
      var incidents := Db.Store(w.incidents, id, started);
      var proposal := ProposalAfter(StatusOf(env.live));
      if !env.timelineLands then (RejectedWith(NoTimeline), World(rows, incidents, proposal))
      else
        var (r, settled) := Settle(incidents, id, tenant, env, w.incidents[id]);
        (r, World(rows, settled, proposal))
  }

  function ClaimFor(w: World, job: Job, tenant: string, env: Environment): (ClaimResult, Rows) {
    if env.claimAborted then (ConflictRead(w.rows, job.key, job.worker, env.claimClock), w.rows)
    else ClaimTransaction(w.rows, job.key, job.worker, tenant, 45000, env.claimClock)
  }

  /** performExecution as a function of everything it reads. */
  function Perform(w: World, job: Job, env: Environment): (Settlement, World) {
    if job.incidentId !in w.incidents then (RejectedWith(NoIncident), w)
    else
      var incidentTenant := w.incidents[job.incidentId].tenantId;
      if job.contextTenant != "" && incidentTenant != "" && incidentTenant != job.contextTenant
      then (RejectedWith(ForeignTenant), w)
      else if w.proposal == Success then (Fulfilled(ExecutionResult(SUCCESS, None, None)), w)
      else if w.proposal != Approved then (RejectedWith(NotApproved), w)
      else if job.expiresAt.Some? && env.expiryClock >= job.expiresAt.value
      then (Fulfilled(ExecutionResult(EXPIRY, None, Some("APPROVAL_EXPIRED"))), w)
      else
        var tenant := TenantOf(w, job);
        var (claim, rows) := ClaimFor(w, job, tenant, env);
        match claim
        case LeaseHeld(_) => (RejectedWith(Leased), w)
        case Rethrown => (RejectedWith(ClaimLost), w)
        case NotNew(e, _) =>
          if Settled(e.status) then (Fulfilled(Replay(e)), w) else Execute(w, job, tenant, env)
        case Granted(_) => Execute(w.(rows := rows), job, tenant, env)
  }

  class Service {
    const store: Store
    const incidents: Db.IncidentTable
    const workerId: string

    constructor (store: Store, incidents: Db.IncidentTable, workerId: string)
      ensures this.store == store && this.incidents == incidents && this.workerId == workerId
    {
      this.store := store;
      this.incidents := incidents;
      this.workerId := workerId;
    }

    function Now(proposal: Proposal): World
      reads this, store, incidents, proposal
    {
      World(store.rows, incidents.rows, proposal.status)
    }

    method SettleIncident(id: string, tenant: string, env: Environment, status: ResultStatus, snapshot: Db.IncidentRow)
      returns (rejected: bool)
      requires status == StatusOf(env.live)
      modifies incidents
      ensures var (r, after) := Settle(old(incidents.rows), id, tenant, env, snapshot);
              incidents.rows == after && rejected == r.RejectedWith?
    {
      if !env.transitionLands {
        if status == SUCCESS {
          return true;
        }
      } else {
        var moved := incidents.TransitionState(id, StateOf(status), NoVersion(tenant), env.claimClock);
        if moved.Err? {
          if status == SUCCESS {
            return true;
          }
          var _ := incidents.TransitionState(id, ESCALATED, NoVersion(tenant), env.claimClock);
        }
      }
      var _ := incidents.UpdateIncident(id, snapshot.state, snapshot.severity, snapshot.mttrSeconds);
      return false;
    }

    method RecordExecution(key: string, tenant: string, env: Environment) returns (result: ExecutionResult)
      modifies store
      ensures store.rows == Record(old(store.rows), key, tenant, env)
      ensures result == ResultOf(env.live)
    {
      if env.markLands {
        var _ := store.UpdateExecution(tenant, key, Update(Executing, None, None));
      }
      var status := FAILURE;
      var observed, code: Option<string> := None, None;
      match env.live {
        case Returned(success, hash, c) =>
          observed, code := hash, c;
          status := if success then SUCCESS else FAILURE;
        case Threw(timedOut) =>
          if timedOut {
            status, code := AMBIGUOUS, Some("UNKNOWN_EXTERNAL_OUTCOME");
          } else {
            status, code := FAILURE, Some("EXECUTION_FAILED");
          }
      }
      if env.persistLands {
        var _ := store.UpdateExecution(tenant, key, Update(RowStatusOf(status), observed, code));
      }
      result := ExecutionResult(status, observed, code);
    }

    method ExecuteClaimed(job: Job, proposal: Proposal, tenant: string, env: Environment) returns (r: Settlement)
      requires job.incidentId in incidents.rows
      modifies store, incidents, proposal
      ensures (r, Now(proposal)) == Execute(old(Now(proposal)), job, tenant, env)
    {
      var incident := incidents.rows[job.incidentId];
      var started := incidents.TransitionState(job.incidentId, EXECUTING, NoVersion(tenant), env.claimClock);
      if started.Err? {
        return RejectedWith(NotStartable);
      }
      proposal.status := InExecution;
      var result := RecordExecution(job.key, tenant, env);
      proposal.status := ProposalAfter(result.status);
      if !env.timelineLands {
        return RejectedWith(NoTimeline);
      }
      var rejected := SettleIncident(job.incidentId, tenant, env, result.status, incident);
      if rejected {
        return RejectedWith(NotMoved);
      }
      return Fulfilled(result);
    }

    method PerformExecution(job: Job, proposal: Proposal, env: Environment) returns (r: Settlement)
      requires job.worker == workerId && job.key == proposal.idempotencyKey && job.expiresAt == proposal.expiresAt
      modifies store, incidents, proposal
      ensures (r, Now(proposal)) == Perform(old(Now(proposal)), job, env)
    {
      if job.incidentId !in incidents.rows {
        return RejectedWith(NoIncident);
      }
      var incident := incidents.rows[job.incidentId];
      var tenant := FirstTenant(job.contextTenant, job.optionTenant, incident.tenantId);
      if job.contextTenant != "" && incident.tenantId != "" && incident.tenantId != job.contextTenant {
        return RejectedWith(ForeignTenant);
      }

      // 1. Proposal status and deadline
      if proposal.status != Approved {
        if proposal.status == Success {
          return Fulfilled(ExecutionResult(SUCCESS, None, None));
        }
        return RejectedWith(NotApproved);
      }
      if proposal.expiresAt.Some? && env.expiryClock >= proposal.expiresAt.value {
        return Fulfilled(ExecutionResult(EXPIRY, None, Some("APPROVAL_EXPIRED")));
      }

      // 2. Durable claim
      var claim := store.ClaimExecution(job.key, workerId, tenant, 45000, env.claimClock, env.claimAborted);
      if claim.LeaseHeld? {
        return RejectedWith(Leased);
      }
      if claim.Rethrown? {
        return RejectedWith(ClaimLost);
      }
      if claim.NotNew? && Settled(claim.execution.status) {
        return Fulfilled(Replay(claim.execution));
      }
      r := ExecuteClaimed(job, proposal, tenant, env);
    }

    /** A write that throws ends in the answer UNKNOWN. */
    method ReconcileExecution(job: ReconcileJob, live: LiveRead, faults: Faults, now: int) returns (r: Answer)
      modifies store, incidents
      ensures (r, store.rows, incidents.rows) == Reconcile(old(store.rows), old(incidents.rows), job, live, faults, now)
    {
      if job.key !in store.rows || store.rows[job.key].tenantId != job.tenant {
        return Thrown;
      }
      var execution := store.rows[job.key];
      if !job.proposalFound {
        return Thrown;
      }
      if !job.rollback {
        return Said(Unknown);
      }
      if live.ReadFailed? {
        return Said(Unknown);
      }
      if live.NoTemplate? {
        return Said(Failed);
      }
      var expectedHash := if job.targetHash.Some? then job.targetHash else execution.desiredStateHash;
      var matchesTarget: bool;
      if expectedHash.Some? {
        matchesTarget := live.hash == expectedHash.value;
      } else {
        matchesTarget := job.targetRevision.Some? ==> job.targetRevision == live.revision;
      }
      if !faults.rowLands {
        return Said(Unknown);
      }
      if matchesTarget {
        var _ := store.UpdateExecution(job.tenant, job.key, Update(Succeeded, Some(live.hash), None));
        if !faults.transitionLands {
          return Said(Unknown);
        }
        var moved := incidents.TransitionState(job.incidentId, VERIFYING, NoVersion(job.tenant), now);
        return Said(if moved.Ok? then Succeeded else Unknown);
      } else {
        var _ := store.UpdateExecution(job.tenant, job.key, Update(Failed, None, Some("RECONCILIATION_FAILED")));
        if !faults.transitionLands {
          return Said(Unknown);
        }
        var moved := incidents.TransitionState(job.incidentId, EXECUTION_FAILED, NoVersion(job.tenant), now);
        return Said(if moved.Ok? then Failed else Unknown);
      }
    }
  }

  // ---------------------------------------------------------------- reconciliation

  /** An empty target hash or revision is an absent one; so is a revision of zero. */
  datatype ReconcileJob = ReconcileJob(
    incidentId: string,
    key: string,
    tenant: string,
    proposalFound: bool,
    rollback: bool,
    targetHash: Option<string>,
    targetRevision: Option<string>)

  datatype LiveRead = ReadFailed | NoTemplate | Template(hash: string, revision: Option<string>)

  /** Which of the two writes of a reconciliation reach the database. */
  datatype Faults = Faults(rowLands: bool, transitionLands: bool)

  datatype Answer = Thrown | Said(status: Status)

  predicate Matches(e: Execution, job: ReconcileJob, live: LiveRead)
    requires live.Template?
  {
    var expected := if job.targetHash.Some? then job.targetHash else e.desiredStateHash;
    if expected.Some? then live.hash == expected.value
    else job.targetRevision.Some? ==> job.targetRevision == live.revision
  }

  function Reconcile(rows: Rows, incidents: Db.Incidents, job: ReconcileJob, live: LiveRead, faults: Faults, now: int)
    : (Answer, Rows, Db.Incidents)
  {
    if job.key !in rows || rows[job.key].tenantId != job.tenant || !job.proposalFound then (Thrown, rows, incidents)
    else if !job.rollback || live.ReadFailed? then (Said(Unknown), rows, incidents)
    else if live.NoTemplate? then (Said(Failed), rows, incidents)
    else if !faults.rowLands then (Said(Unknown), rows, incidents)
    else
      var ok := Matches(rows[job.key], job, live);
      var u := if ok then Update(Succeeded, Some(live.hash), None)
               else Update(Failed, None, Some("RECONCILIATION_FAILED"));
      var target := if ok then VERIFYING else EXECUTION_FAILED;
      var moved := Db.TransitionRow(Db.Find(incidents, job.incidentId), target, NoVersion(job.tenant), now);
      (Said(if !faults.transitionLands || moved.Err? then Unknown else u.status),
       UpdateRows(rows, job.tenant, job.key, u),
       if faults.transitionLands then Db.Store(incidents, job.incidentId, moved) else incidents)
  }

  predicate Reconciled(answer: Status, row: Status, state: State) {
    || (answer == Succeeded && row == Succeeded && state == VERIFYING)
    || (answer == Failed && row == Failed && state == EXECUTION_FAILED)
    || (answer == Unknown && row == Unknown && state == UNKNOWN)
  }

  // ---------------------------------------------------------------- results

  predicate NewlyClaimed(w: World, job: Job, env: Environment) {
    job.incidentId in w.incidents && ClaimFor(w, job, TenantOf(w, job), env).0.Granted?
  }

  /**
    The row to be written, if there is one already, is the caller's tenant's. The claim does not look at the tenant of
    the row it renews; the updates do.
   */
  predicate OwnRow(w: World, job: Job) {
    job.incidentId in w.incidents && (job.key in w.rows ==> w.rows[job.key].tenantId == TenantOf(w, job))
  }

  lemma StartedExecuting(row: Db.IncidentRow, tenant: string, now: int)
    requires Db.TransitionRow(Some(row), EXECUTING, NoVersion(tenant), now).Ok?
    ensures var r := Db.TransitionRow(Some(row), EXECUTING, NoVersion(tenant), now).value;
            r.state == EXECUTING && (tenant == "" || r.tenantId == tenant)
  {
  }

  lemma SettledState(incidents: Db.Incidents, id: string, tenant: string, env: Environment, snapshot: Db.IncidentRow)
    requires id in incidents && incidents[id].state == EXECUTING && (tenant == "" || incidents[id].tenantId == tenant)
    ensures var (r, after) := Settle(incidents, id, tenant, env, snapshot);
            id in after
            && (r.Fulfilled? ==> r.result == ResultOf(env.live))
            && (r.Fulfilled? ==>
                 after[id].state == if env.transitionLands then StateOf(StatusOf(env.live)) else EXECUTING)
            && (r.Fulfilled? <==> StatusOf(env.live) != SUCCESS || env.transitionLands)
  {
    var target := StateOf(StatusOf(env.live));
    assert CanTransition(EXECUTING, target);
    assert Db.TransitionRow(Some(incidents[id]), target, NoVersion(tenant), env.claimClock).Ok?;
  }

  /** The updates of a row of another tenant are refused, and the refusals swallowed. */
  lemma RecordedStatus(rows: Rows, key: string, tenant: string, env: Environment)
    requires key in rows
    ensures var after := Record(rows, key, tenant, env);
            key in after
            && after[key].status ==
               (if rows[key].tenantId != tenant then rows[key].status
                else if env.persistLands then RowStatusOf(StatusOf(env.live))
                else if env.markLands then Executing
                else rows[key].status)
            && after[key].claimedBy == rows[key].claimedBy && after[key].leaseUntil == rows[key].leaseUntil
            && after[key].attempt == rows[key].attempt
            && after[key].tenantId == rows[key].tenantId && after[key].desiredStateHash == rows[key].desiredStateHash
  {
  }

  lemma ExecuteAgrees(w: World, job: Job, tenant: string, env: Environment)
    requires job.incidentId in w.incidents && job.key in w.rows && w.rows[job.key].status == Claimed
    requires Execute(w, job, tenant, env).0.Fulfilled?
    ensures var (r, w') := Execute(w, job, tenant, env);
            job.key in w'.rows && job.incidentId in w'.incidents && r.result == ResultOf(env.live)
            && w'.rows == Record(w.rows, job.key, tenant, env)
            && (ThreeWay(r.result.status, w'.rows[job.key].status, w'.incidents[job.incidentId].state)
                <==> env.persistLands && env.transitionLands && w.rows[job.key].tenantId == tenant)
  {
    var id := job.incidentId;
    var started := Db.TransitionRow(Db.Find(w.incidents, id), EXECUTING, NoVersion(tenant), env.claimClock);
    StartedExecuting(w.incidents[id], tenant, env.claimClock);
    SettledState(Db.Store(w.incidents, id, started), id, tenant, env, w.incidents[id]);
    RecordedStatus(w.rows, job.key, tenant, env);
  }

  lemma ClaimedRow(w: World, job: Job, env: Environment)
    requires NewlyClaimed(w, job, env)
    ensures var rows := ClaimFor(w, job, TenantOf(w, job), env).1;
            job.key in rows && rows[job.key].status == Claimed && rows[job.key].claimedBy == job.worker
            && (rows[job.key].tenantId == TenantOf(w, job) <==> OwnRow(w, job))
  {
  }

  /** A call that claimed anew and returned its outcome. */
  predicate Executed(w: World, job: Job, env: Environment) {
    w.proposal == Approved && NewlyClaimed(w, job, env)
    && Perform(w, job, env).0.Fulfilled? && Perform(w, job, env).0.result.status != EXPIRY
  }

  /**
    With no other writer, a newly claimed execution that returns leaves the answer, the row and the incident in one of
    the three agreeing combinations, named by the outcome of the cluster call, exactly when both writes of the outcome
    arrive and the row claimed is the caller's tenant's. Otherwise the row is not written at all.
   */
  lemma OutcomesAgree(w: World, job: Job, env: Environment)
    requires Executed(w, job, env)
    ensures var (r, w') := Perform(w, job, env);
            job.key in w'.rows && job.incidentId in w'.incidents && r.result.status == StatusOf(env.live)
            && (ThreeWay(r.result.status, w'.rows[job.key].status, w'.incidents[job.incidentId].state)
                <==> env.persistLands && env.transitionLands && OwnRow(w, job))
            && w'.rows[job.key].claimedBy == job.worker
            && w'.rows[job.key].status ==
               if !OwnRow(w, job) then Claimed
               else if env.persistLands then RowStatusOf(r.result.status)
               else if env.markLands then Executing
               else Claimed
  {
    hide CanTransition;
    var tenant := TenantOf(w, job);
    var rows := ClaimFor(w, job, tenant, env).1;
    ClaimedRow(w, job, env);
    ExecuteAgrees(w.(rows := rows), job, tenant, env);
    RecordedStatus(rows, job.key, tenant, env);
  }

  /** Other rows and other incidents are left alone. */
  lemma {:induction false} ExecutionFrame(w: World, job: Job, env: Environment, k: string, i: string)
    requires k != job.key && i != job.incidentId
    ensures var w' := Perform(w, job, env).1;
            (k in w'.rows <==> k in w.rows) && (k in w.rows ==> w'.rows[k] == w.rows[k])
            && (i in w'.incidents <==> i in w.incidents) && (i in w.incidents ==> w'.incidents[i] == w.incidents[i])
  {
    if job.incidentId in w.incidents {
      var tenant := TenantOf(w, job);
      var rows := ClaimFor(w, job, tenant, env).1;
      assert k in rows <==> k in w.rows;
      ExecuteFrame(w, job, tenant, env, k, i);
      ExecuteFrame(w.(rows := rows), job, tenant, env, k, i);
    }
  }

  lemma {:induction false} ExecuteFrame(w: World, job: Job, tenant: string, env: Environment, k: string, i: string)
    requires job.incidentId in w.incidents && k != job.key && i != job.incidentId
    ensures var w' := Execute(w, job, tenant, env).1;
            (k in w'.rows <==> k in w.rows) && (k in w.rows ==> w'.rows[k] == w.rows[k])
            && (i in w'.incidents <==> i in w.incidents) && (i in w.incidents ==> w'.incidents[i] == w.incidents[i])
  {
  }

  /**
    What a call needs in order to write anything: an approved proposal before its deadline, an
    incident of the caller's tenant, and a claim that is granted or still CLAIMED. To move the
    incident it also needs a state from which an execution may start.
   */
  lemma WritesOnlyWhenCleared(w: World, job: Job, env: Environment)
    requires Perform(w, job, env).1 != w
    ensures w.proposal == Approved && (job.expiresAt.Some? ==> env.expiryClock < job.expiresAt.value)
    ensures job.incidentId in w.incidents
    ensures var incident := w.incidents[job.incidentId];
            (job.contextTenant != "" && incident.tenantId != "" ==> incident.tenantId == job.contextTenant)
            && (Perform(w, job, env).1.incidents != w.incidents ==>
                  incident.tenantId == TenantOf(w, job)
                  && (incident.state == EXECUTING || CanTransition(incident.state, EXECUTING)))
    ensures var claim := ClaimFor(w, job, TenantOf(w, job), env).0;
            claim.Granted? || (claim.NotNew? && !Settled(claim.execution.status))
  {
    hide CanTransition, ClaimFor, Settle, Record;
    var tenant := TenantOf(w, job);
    assert Db.TransitionRow(Some(w.incidents[job.incidentId]), EXECUTING, NoVersion(tenant), env.claimClock).Ok?
           ==> tenant == "" || w.incidents[job.incidentId].tenantId == tenant;
  }

  /**
    Nothing keeps the later call from answering: incident, tenant, deadline, and no old lease behind an aborted
    claim.
   */
  predicate MayReplay(w: World, again: Job, env: Environment) {
    again.incidentId in w.incidents
    && (again.contextTenant != "" && w.incidents[again.incidentId].tenantId != "" ==>
          w.incidents[again.incidentId].tenantId == again.contextTenant)
    && (again.expiresAt.Some? ==> env.expiryClock < again.expiresAt.value)
    && (env.claimAborted && again.key in w.rows && LeaseActive(w.rows[again.key], env.claimClock) ==>
          w.rows[again.key].claimedBy == again.worker)
  }

  /**
    Idempotent replay: once an execution of a key has stored its outcome, any later call for the key, by any worker with
    an approved copy of the proposal, writes nothing. It answers with the same status exactly when it may; otherwise it
    rejects or reports the deadline.
   */
  lemma ReplayIsIdempotent(w: World, job: Job, env: Environment, again: Job, env2: Environment)
    requires Executed(w, job, env) && again.key == job.key
    ensures var (r, w') := Perform(w, job, env);
            var next := w'.(proposal := Approved);
            var (r2, w2) := Perform(next, again, env2);
            OwnRow(w, job) && env.persistLands ==>
              w2 == next
              && if MayReplay(next, again, env2) then r2.Fulfilled? && r2.result.status == r.result.status
                 else r2.RejectedWith? || r2.result.status == EXPIRY
  {
    hide CanTransition, Perform;
    OutcomesAgree(w, job, env);
    var (r, w') := Perform(w, job, env);
    if OwnRow(w, job) && env.persistLands {
      ReplayFrom(w'.(proposal := Approved), again, env2);
    }
  }

  /** No later call for the key, by whomever and whatever befalls it, writes anything. */
  ghost predicate OnlyReplays(w: World, key: string) {
    forall again: Job, env: Environment :: again.key == key ==>
      Perform(w.(proposal := Approved), again, env).1 == w.(proposal := Approved)
  }

  /**
    An execution is the last one of its key exactly when it left its row marked or settled, which takes a row of
    its own tenant.
   */
  lemma {:induction false} LastExecutionIff(w: World, job: Job, env: Environment)
    requires Executed(w, job, env)
    ensures OnlyReplays(Perform(w, job, env).1, job.key) <==> OwnRow(w, job) && (env.markLands || env.persistLands)
  {
    hide CanTransition, Perform;
    OutcomesAgree(w, job, env);
    var next := Perform(w, job, env).1.(proposal := Approved);
    if Settled(next.rows[job.key].status) {
      forall again: Job, env2: Environment | again.key == job.key ensures Perform(next, again, env2).1 == next {
        ReplayFrom(next, again, env2);
      }
    } else {
      PerformKeepsTenant(w, job, env);
      Reclaims(next, job.(expiresAt := None), env.(claimAborted := false));
    }
  }

  lemma PerformKeepsTenant(w: World, job: Job, env: Environment)
    requires Executed(w, job, env)
    ensures var w' := Perform(w, job, env).1;
            job.incidentId in w'.incidents
            && w'.incidents[job.incidentId].tenantId == w.incidents[job.incidentId].tenantId
            && !(job.contextTenant != "" && w.incidents[job.incidentId].tenantId != ""
                 && w.incidents[job.incidentId].tenantId != job.contextTenant)
  {
    hide CanTransition;
  }

  /** A row left CLAIMED is claimed once more by its own worker. */
  lemma Reclaims(w: World, job: Job, env: Environment)
    requires w.proposal == Approved && job.incidentId in w.incidents && job.expiresAt.None? && !env.claimAborted
    requires !(job.contextTenant != "" && w.incidents[job.incidentId].tenantId != ""
               && w.incidents[job.incidentId].tenantId != job.contextTenant)
    requires job.key in w.rows && w.rows[job.key].status == Claimed && w.rows[job.key].claimedBy == job.worker
    ensures Perform(w, job, env).1 != w
  {
    hide CanTransition, Record, Settle;
    var tenant := TenantOf(w, job);
    var rows := ClaimFor(w, job, tenant, env).1;
    RecordedStatus(rows, job.key, tenant, env);
    assert rows[job.key].attempt == w.rows[job.key].attempt + 1;
  }

  const ALL_LAND := Environment(0, 0, false, true, true, true, true, Returned(true, None, None))

  const FIRST := Job("i", "k", "worker", "", "B", None)
  const SECOND := Job("i", "k", "worker", "", "", None)
  const INCIDENT := Db.IncidentRow("A", APPROVED, 1, Db.SEV_1, 0, None, None)
  const BEGINNING := World(map[], map["i" := INCIDENT], Approved)

  /** The first call names tenant B: it claims the row under B and is refused at the incident. */
  lemma ForeignClaim()
    ensures var (r, w) := Perform(BEGINNING, FIRST, ALL_LAND);
            r.RejectedWith? && w == BEGINNING.(rows := map["k" := FirstClaim("worker", "B", 45000)])
  {
    hide CanTransition, Record, Settle;
    assert "A"[0] != "B"[0];
  }

  /**
    Two calls on an incident of tenant A, with no fault at all. The first leaves a row of tenant B. The second
    is granted the key, changes the cluster and answers SUCCESS, but neither of its writes reaches the row: it
    stays CLAIMED, and once the lease has ended another worker is granted it.
   */
  lemma {:induction false} ForeignClaimRepeats()
    ensures var w1 := Perform(BEGINNING, FIRST, ALL_LAND).1;
            var (r, w2) := Perform(w1, SECOND, ALL_LAND);
            Executed(w1, SECOND, ALL_LAND) && !OwnRow(w1, SECOND) && r.Fulfilled? && r.result.status == SUCCESS
            && "k" in w2.rows && w2.rows["k"].status == Claimed && w2.rows["k"].claimedBy == "worker"
            && ClaimTransaction(w2.rows, "k", "other", "A", 45000, 45000).0.Granted?
  {
    hide CanTransition, Record;
    ForeignClaim();
    var w1 := Perform(BEGINNING, FIRST, ALL_LAND).1;
    var rows := ClaimFor(w1, SECOND, "A", ALL_LAND).1;
    assert "A"[0] != "B"[0] && rows["k"].tenantId == "B" && rows["k"].leaseUntil == 45000;
    RecordedStatus(rows, "k", "A", ALL_LAND);
    StartAllowed();
    var started := Db.TransitionRow(Some(INCIDENT), EXECUTING, NoVersion("A"), 0);
    SettledState(Db.Store(w1.incidents, "i", started), "i", "A", ALL_LAND, INCIDENT);
  }

  lemma StartAllowed()
    ensures CanTransition(APPROVED, EXECUTING)
  {
    assert AllowedTransitions(APPROVED)[0] == EXECUTING;
  }

  predicate NoErrorCode(e: Execution) { e.errorCode.None? || e.errorCode.value == "" }

  /**
    A call that finds its key marked or settled executes nothing, and answers by the stored status: an outcome that is
    not known is never reported as done.
   */
  lemma ReplayFrom(w: World, again: Job, env: Environment)
    requires w.proposal == Approved && again.key in w.rows
    requires w.rows[again.key].status in {Executing, Unknown, Succeeded, Failed}
    ensures var (r, after) := Perform(w, again, env);
            var e := w.rows[again.key];
            after == w
            && if !MayReplay(w, again, env) then r.RejectedWith? || r.result.status == EXPIRY
               else
                 r.Fulfilled? && r.result.observedStateHash.None?
                 && (r.result.status == SUCCESS <==> e.status == Succeeded)
                 && (r.result.status == FAILURE <==> e.status == Failed)
                 && (e.status == Executing || e.status == Unknown ==>
                      r.result.status == AMBIGUOUS && r.result.errorCode == Some("RECONCILIATION_REQUIRED"))
                 && (e.status == Succeeded ==> r.result.errorCode.None?)
                 && (e.status == Failed ==>
                      r.result.errorCode == if NoErrorCode(e) then Some("EXECUTION_FAILED") else e.errorCode)
  {
    hide Execute, CanTransition;
  }

  /** The status that is stored for a key. */
  predicate Stored(w: World, key: string, statuses: set<Status>) {
    key in w.rows && w.rows[key].status in statuses
  }

  predicate DeadlinePassed(job: Job, env: Environment) { job.expiresAt.Some? && job.expiresAt.value <= env.expiryClock }

  /**
    What an answer without any write rests on. SUCCESS needs a stored success, of the row or of the proposal; the
    deadline is reported exactly when an approved proposal has passed it.
   */
  lemma AnswersWithoutWriting(w: World, job: Job, env: Environment)
    requires Perform(w, job, env).1 == w && Perform(w, job, env).0.Fulfilled?
    ensures job.incidentId in w.incidents && (w.proposal == Success || w.proposal == Approved)
    ensures match Perform(w, job, env).0.result.status
            case SUCCESS => w.proposal == Success || Stored(w, job.key, {Succeeded})
            case FAILURE => w.proposal == Approved && Stored(w, job.key, {Failed})
            case AMBIGUOUS => w.proposal == Approved && Stored(w, job.key, {Executing, Unknown})
            case EXPIRY => w.proposal == Approved && DeadlinePassed(job, env)
    ensures w.proposal == Approved && DeadlinePassed(job, env) ==>
              Perform(w, job, env).0.result == ExecutionResult(EXPIRY, None, Some("APPROVAL_EXPIRED"))
  {
    hide CanTransition, Record, Settle;
  }

  /** The incident is there, and not of another tenant than the context names. */
  predicate OwnIncident(w: World, job: Job) {
    job.incidentId in w.incidents
    && (job.contextTenant == "" || w.incidents[job.incidentId].tenantId in {"", job.contextTenant})
  }

  predicate ReachesClaim(w: World, job: Job, env: Environment) {
    OwnIncident(w, job) && w.proposal == Approved && !DeadlinePassed(job, env)
  }

  predicate LeasedByOther(w: World, job: Job, env: Environment) {
    job.key in w.rows && env.claimClock < w.rows[job.key].leaseUntil && w.rows[job.key].claimedBy != job.worker
  }

  /** The claim is granted, or answers with a row that says nothing of an execution yet. */
  predicate ClaimPasses(w: World, job: Job, env: Environment) {
    if env.claimAborted then Stored(w, job.key, {Claimed, Pending, Expired}) && !LeasedByOther(w, job, env)
    else
      job.key !in w.rows || Stored(w, job.key, {Pending, Expired})
      || (Stored(w, job.key, {Claimed}) && !LeasedByOther(w, job, env))
  }

  /** The incident is of the tenant that the call acts for, in a state from which an execution may start. */
  predicate Startable(w: World, job: Job)
    requires job.incidentId in w.incidents
  {
    var incident := w.incidents[job.incidentId];
    incident.tenantId == TenantOf(w, job) && (incident.state == EXECUTING || CanTransition(incident.state, EXECUTING))
  }

  /** The call gets as far as the cluster. */
  predicate CallsCluster(w: World, job: Job, env: Environment) {
    ReachesClaim(w, job, env) && ClaimPasses(w, job, env) && Startable(w, job)
  }

  /**
    Why a call is rejected, exactly. For the last two reasons the cluster call has been made all the same: the row
    holds its outcome, if it could be written, and the incident stays EXECUTING.
   */
  lemma {:induction false} RejectedIff(w: World, job: Job, env: Environment)
    ensures var (r, w') := Perform(w, job, env);
            var reached, leased := ReachesClaim(w, job, env), LeasedByOther(w, job, env);
            (r == RejectedWith(NoIncident) <==> job.incidentId !in w.incidents)
            && (r == RejectedWith(ForeignTenant) <==> job.incidentId in w.incidents && !OwnIncident(w, job))
            && (r == RejectedWith(NotApproved)
                <==> OwnIncident(w, job) && w.proposal != Approved && w.proposal != Success)
            && (r == RejectedWith(Leased)
                <==> reached && leased && (env.claimAborted || Stored(w, job.key, {Claimed})))
            && (r == RejectedWith(ClaimLost) <==> reached && env.claimAborted && job.key !in w.rows)
            && (r == RejectedWith(NotStartable) <==> reached && ClaimPasses(w, job, env) && !Startable(w, job))
            && (r == RejectedWith(NoTimeline) <==> CallsCluster(w, job, env) && !env.timelineLands)
            && (r == RejectedWith(NotMoved)
                <==> CallsCluster(w, job, env) && env.timelineLands && !env.transitionLands
                     && env.live.Returned? && env.live.success)
            && (!CallsCluster(w, job, env) ==> w'.incidents == w.incidents && w'.proposal == w.proposal)
            && (!CallsCluster(w, job, env) && r.Fulfilled? ==> w' == w)
  {
    hide CanTransition, Record;
    if ReachesClaim(w, job, env) && ClaimPasses(w, job, env) {
      var tenant := TenantOf(w, job);
      assert tenant != "";
      var before := Some(w.incidents[job.incidentId]);
      var started := Db.TransitionRow(before, EXECUTING, NoVersion(tenant), env.claimClock);
      assert started.Ok? <==> Startable(w, job);
      if started.Ok? {
        var incidents := Db.Store(w.incidents, job.incidentId, started);
        StartedExecuting(w.incidents[job.incidentId], tenant, env.claimClock);
        SettledState(incidents, job.incidentId, tenant, env, w.incidents[job.incidentId]);
      }
    }
  }

  /**
    What the answer, the row, the incident and the proposal of a call that got as far as the cluster and returned say of
    it: success as it was returned, a timeout as unknown, anything else as a failure, each with the code or hash that
    came with it.
   */
  lemma {:induction false} OutcomeMeans(w: World, job: Job, env: Environment)
    requires CallsCluster(w, job, env) && Perform(w, job, env).0.Fulfilled?
    ensures var (r, w') := Perform(w, job, env);
            var before := w.incidents[job.incidentId];
            job.incidentId in w'.incidents
            && (r.result.status == SUCCESS <==> env.live.Returned? && env.live.success)
            && (r.result.status == AMBIGUOUS <==> env.live == Threw(true))
            && (r.result.status == FAILURE <==> (env.live.Returned? && !env.live.success) || env.live == Threw(false))
            && (env.live.Returned? ==>
                  r.result.observedStateHash == env.live.hash && r.result.errorCode == env.live.code)
            && (env.live.Threw? ==>
                  r.result.observedStateHash.None?
                  && r.result.errorCode ==
                     Some(if env.live.timedOut then "UNKNOWN_EXTERNAL_OUTCOME" else "EXECUTION_FAILED"))
            && w'.incidents[job.incidentId] == before.(
                 state := if !env.transitionLands then EXECUTING
                          else if r.result.status == SUCCESS then VERIFYING
                          else if r.result.status == AMBIGUOUS then UNKNOWN
                          else EXECUTION_FAILED,
                 version := before.version + (if before.state == EXECUTING then 0 else 1)
                            + (if env.transitionLands then 1 else 0))
            && w'.proposal == (if r.result.status == SUCCESS then Success
                               else if r.result.status == AMBIGUOUS then InExecution
                               else ProposalFailed)
    ensures var (r, w') := Perform(w, job, env);
            OwnRow(w, job) && env.persistLands ==>
              job.key in w'.rows
              && (r.result.status == SUCCESS <==> w'.rows[job.key].status == Succeeded)
              && (r.result.status == AMBIGUOUS <==> w'.rows[job.key].status == Unknown)
              && (r.result.status == FAILURE <==> w'.rows[job.key].status == Failed)
              && (r.result.observedStateHash.Some? ==>
                    w'.rows[job.key].observedStateHash == r.result.observedStateHash)
              && (r.result.errorCode.Some? ==> w'.rows[job.key].errorCode == r.result.errorCode)
  {
    hide CanTransition, Perform, Record, Settle;
    var tenant := TenantOf(w, job);
    var rows := ClaimFor(w, job, tenant, env).1;
    PerformExecutes(w, job, env);
    ExecuteOutcome(w.(rows := rows), job, tenant, env);
    assert OwnRow(w, job) ==> rows[job.key].tenantId == tenant;
    RecordedColumns(rows, job.key, tenant, env);
  }

  lemma PerformExecutes(w: World, job: Job, env: Environment)
    requires CallsCluster(w, job, env)
    ensures var rows := ClaimFor(w, job, TenantOf(w, job), env).1;
            Perform(w, job, env) == Execute(w.(rows := rows), job, TenantOf(w, job), env) && job.key in rows
  {
    hide Execute, CanTransition;
  }

  lemma {:induction false} ExecuteOutcome(w: World, job: Job, tenant: string, env: Environment)
    requires job.incidentId in w.incidents && tenant != "" && w.incidents[job.incidentId].tenantId == tenant
    requires var state := w.incidents[job.incidentId].state; state == EXECUTING || CanTransition(state, EXECUTING)
    requires Execute(w, job, tenant, env).0.Fulfilled?
    ensures var (r, w') := Execute(w, job, tenant, env);
            var before := w.incidents[job.incidentId];
            r == Fulfilled(ResultOf(env.live)) && w'.rows == Record(w.rows, job.key, tenant, env)
            && w'.proposal == ProposalAfter(StatusOf(env.live)) && job.incidentId in w'.incidents
            && w'.incidents[job.incidentId] == before.(
                 state := if env.transitionLands then StateOf(StatusOf(env.live)) else EXECUTING,
                 version := before.version + (if before.state == EXECUTING then 0 else 1)
                            + (if env.transitionLands then 1 else 0))
  {
    hide CanTransition, Record;
    var before := w.incidents[job.incidentId];
    var started := Db.TransitionRow(Some(before), EXECUTING, NoVersion(tenant), env.claimClock);
    assert started.Ok?;
    Started(before, tenant, env.claimClock);
    SettledState(Db.Store(w.incidents, job.incidentId, started), job.incidentId, tenant, env, before);
    SettledRow(Db.Store(w.incidents, job.incidentId, started), job.incidentId, tenant, env, before);
  }

  lemma RecordedColumns(rows: Rows, key: string, tenant: string, env: Environment)
    requires key in rows
    ensures var after := Record(rows, key, tenant, env);
            key in after
            && (rows[key].tenantId == tenant && env.persistLands ==>
                  after[key].status == RowStatusOf(StatusOf(env.live))
                  && (ResultOf(env.live).observedStateHash.Some? ==>
                        after[key].observedStateHash == ResultOf(env.live).observedStateHash)
                  && (ResultOf(env.live).errorCode.Some? ==> after[key].errorCode == ResultOf(env.live).errorCode))
  {
  }

  lemma Started(row: Db.IncidentRow, tenant: string, now: int)
    requires Db.TransitionRow(Some(row), EXECUTING, NoVersion(tenant), now).Ok?
    ensures Db.TransitionRow(Some(row), EXECUTING, NoVersion(tenant), now).value
            == row.(state := EXECUTING, version := row.version + if row.state == EXECUTING then 0 else 1)
  {
  }

  /** The incident when its outcome is settled from EXECUTING: nothing but state and version changes. */
  lemma SettledRow(incidents: Db.Incidents, id: string, tenant: string, env: Environment, snapshot: Db.IncidentRow)
    requires id in incidents && incidents[id].state == EXECUTING && incidents[id].tenantId == tenant
    requires snapshot.severity == incidents[id].severity && snapshot.mttrSeconds == incidents[id].mttrSeconds
    requires Settle(incidents, id, tenant, env, snapshot).0.Fulfilled?
    ensures var after := Settle(incidents, id, tenant, env, snapshot).1;
            id in after
            && after[id] == (if env.transitionLands
                             then incidents[id].(state := StateOf(StatusOf(env.live)),
                                                 version := incidents[id].version + 1)
                             else incidents[id])
  {
    var target := StateOf(StatusOf(env.live));
    assert CanTransition(EXECUTING, target) && target != RESOLVED && target != EXECUTING;
  }

  /** A call rejected for one of those two reasons has been executed: what it leaves. */
  lemma {:induction false} RejectedYetExecuted(w: World, job: Job, env: Environment)
    requires Perform(w, job, env).0 in {RejectedWith(NoTimeline), RejectedWith(NotMoved)}
    ensures var w' := Perform(w, job, env).1;
            job.incidentId in w'.incidents && w'.incidents[job.incidentId].state == EXECUTING
            && (NewlyClaimed(w, job, env) && OwnRow(w, job) && env.persistLands ==>
                 job.key in w'.rows
                 && w'.rows[job.key].status == (match env.live
                                                case Returned(success, _, _) => if success then Succeeded else Failed
                                                case Threw(timedOut) => if timedOut then Unknown else Failed))
            && w'.proposal == (match env.live
                               case Returned(success, _, _) => if success then Success else ProposalFailed
                               case Threw(timedOut) => if timedOut then InExecution else ProposalFailed)
  {
    hide CanTransition, Record;
    RejectedIff(w, job, env);
    var tenant := TenantOf(w, job);
    var rows := ClaimFor(w, job, tenant, env).1;
    StartedExecuting(w.incidents[job.incidentId], tenant, env.claimClock);
    if NewlyClaimed(w, job, env) {
      ClaimedRow(w, job, env);
      RecordedStatus(rows, job.key, tenant, env);
    }
  }

  /** Whose row a first claim creates: the context's tenant, or else the option's, the incident's, the default. */
  lemma FirstClaimTenant(w: World, job: Job, env: Environment)
    requires job.key !in w.rows && job.key in Perform(w, job, env).1.rows
    ensures var tenant := Perform(w, job, env).1.rows[job.key].tenantId;
            var incidentTenant := w.incidents[job.incidentId].tenantId;
            job.incidentId in w.incidents
            && (job.contextTenant != "" ==> tenant == job.contextTenant)
            && (job.contextTenant == "" && job.optionTenant != "" ==> tenant == job.optionTenant)
            && (job.contextTenant == "" && job.optionTenant == "" && incidentTenant != "" ==> tenant == incidentTenant)
            && (job.contextTenant == "" && job.optionTenant == "" && incidentTenant == "" ==>
                 tenant == "tenant-eu-default")
  {
    hide CanTransition, Record, Settle;
    var rows := ClaimFor(w, job, TenantOf(w, job), env).1;
    if job.key in rows {
      RecordedStatus(rows, job.key, TenantOf(w, job), env);
    }
  }

  /**
    How an outcome is settled when another writer may have moved the incident since: a success that cannot be recorded
    there rejects; a failure or an unknown outcome that cannot is escalated, if the table allows it.
   */
  lemma SettledAfterRace(incidents: Db.Incidents, id: string, tenant: string, env: Environment,
      snapshot: Db.IncidentRow)
    requires id in incidents && incidents[id].tenantId == tenant && env.transitionLands
    ensures var (r, after) := Settle(incidents, id, tenant, env, snapshot);
            var state := incidents[id].state;
            var target := if env.live.Returned? && env.live.success then VERIFYING
                          else if env.live == Threw(true) then UNKNOWN
                          else EXECUTION_FAILED;
            var movable := state == target || CanTransition(state, target);
            (r.RejectedWith? <==> target == VERIFYING && !movable)
            && (r.RejectedWith? ==> after == incidents)
            && (r.Fulfilled? ==>
                 id in after
                 && after[id].state == (if movable then target
                                        else if CanTransition(state, ESCALATED) then ESCALATED
                                        else state))
  {
    hide CanTransition;
  }

  /**
    While another worker holds an unexpired lease on a key, a call for it writes nothing, and its claim, if it gets that
    far, is refused as LEASE_HELD unless the row is settled. (No code path stores PENDING or EXPIRED in a row.)
   */
  lemma HeldLeaseWritesNothing(w: World, job: Job, env: Environment)
    requires job.key in w.rows && env.claimClock < w.rows[job.key].leaseUntil && w.rows[job.key].claimedBy != job.worker
    requires w.rows[job.key].status != Pending && w.rows[job.key].status != Expired
    ensures Perform(w, job, env).1 == w
    ensures w.proposal == Approved && !DeadlinePassed(job, env)
            && (w.rows[job.key].status == Claimed || env.claimAborted) ==>
              Perform(w, job, env).0.RejectedWith?
  {
    hide CanTransition, Execute;
  }

  predicate Ambiguous(rows: Rows, incidents: Db.Incidents, job: ReconcileJob) {
    job.key in rows && job.incidentId in incidents && job.proposalFound && job.rollback
    && rows[job.key].tenantId == job.tenant && incidents[job.incidentId].tenantId == job.tenant
    && rows[job.key].status == Unknown && incidents[job.incidentId].state == UNKNOWN
  }

  /** The hash that a reconciliation compares with, if any. */
  function ExpectedHash(e: Execution, job: ReconcileJob): Option<string> {
    if job.targetHash.Some? then job.targetHash else e.desiredStateHash
  }

  /**
    What a reconciliation of an ambiguous execution decides, with a template read and both writes landing. It confirms
    the execution everywhere exactly when the expected hash is the live one or, with no hash expected, the target
    revision is absent or the live one; in every other case the row is FAILED, and answer and incident stay UNKNOWN.
   */
  lemma ReconcileConfirms(rows: Rows, incidents: Db.Incidents, job: ReconcileJob, live: LiveRead, now: int)
    requires Ambiguous(rows, incidents, job) && live.Template?
    ensures var (r, rows', incidents') := Reconcile(rows, incidents, job, live, Faults(true, true), now);
            var row, incident := rows'[job.key], incidents'[job.incidentId];
            var expected := ExpectedHash(rows[job.key], job);
            (r == Said(Succeeded)
             <==> expected == Some(live.hash)
                  || (expected.None? && (job.targetRevision.None? || job.targetRevision == live.revision)))
            && (r == Said(Succeeded) ==>
                  row.status == Succeeded && row.observedStateHash == Some(live.hash) && incident.state == VERIFYING)
            && (r != Said(Succeeded) ==>
                  r == Said(Unknown) && row.status == Failed && row.errorCode == Some("RECONCILIATION_FAILED")
                  && incident == incidents[job.incidentId])
            && rows' == rows[job.key := row] && incidents' == incidents[job.incidentId := incident]
  {
    assert CanTransition(UNKNOWN, VERIFYING) && !CanTransition(UNKNOWN, EXECUTION_FAILED);
  }

  /**
    When a reconciliation throws, and when it answers without touching anything: it writes only after it has read a
    template of a rollback's target, and answers UNKNOWN when it cannot.
   */
  lemma ReconcileReadsFirst(rows: Rows, incidents: Db.Incidents, job: ReconcileJob, live: LiveRead,
      faults: Faults, now: int)
    ensures var (r, rows', incidents') := Reconcile(rows, incidents, job, live, faults, now);
            (r == Thrown <==> job.key !in rows || rows[job.key].tenantId != job.tenant || !job.proposalFound)
            && (r == Thrown || !job.rollback || !live.Template? || !faults.rowLands ==>
                 rows' == rows && incidents' == incidents)
            && (r.Said? && (!job.rollback || live.ReadFailed?) ==> r.status == Unknown)
            && (r.Said? && live.Template? && !(faults.rowLands && faults.transitionLands) ==> r.status == Unknown)
            && (r == Said(Failed) && job.key in rows && rows[job.key].status == Unknown ==>
                 live.NoTemplate? || rows'[job.key].status == Failed)
  {
    hide CanTransition;
  }

  /**
    What a reconciliation does in general, once it has read a template and the row can be written: the row is settled by
    what was read, whatever it said before; the incident follows where the table lets it, and only then is the outcome
    the answer.
   */
  lemma ReconcileOutcome(rows: Rows, incidents: Db.Incidents, job: ReconcileJob, live: LiveRead, faults: Faults,
      now: int)
    requires live.Template? && faults.rowLands && job.rollback
    requires Reconcile(rows, incidents, job, live, faults, now).0.Said?
    ensures var (r, rows', incidents') := Reconcile(rows, incidents, job, live, faults, now);
            var e := rows[job.key];
            var expected := ExpectedHash(e, job);
            var confirmed := expected == Some(live.hash)
                             || (expected.None? && (job.targetRevision.None? || job.targetRevision == live.revision));
            var target := if confirmed then VERIFYING else EXECUTION_FAILED;
            var moved := faults.transitionLands && job.incidentId in incidents
                         && job.tenant in {"", incidents[job.incidentId].tenantId}
                         && (incidents[job.incidentId].state == target
                             || CanTransition(incidents[job.incidentId].state, target));
            rows' == rows[job.key := if confirmed then e.(status := Succeeded, observedStateHash := Some(live.hash))
                                     else e.(status := Failed, errorCode := Some("RECONCILIATION_FAILED"))]
            && r == Said(if !moved then Unknown else if confirmed then Succeeded else Failed)
            && (!moved ==> incidents' == incidents)
            && (moved ==>
                  job.incidentId in incidents' && incidents' == incidents[job.incidentId := incidents'[job.incidentId]]
                  && incidents'[job.incidentId].state == target)
  {
    hide CanTransition;
  }

  predicate Confirmed(rows: Rows, incidents: Db.Incidents, job: ReconcileJob, live: LiveRead) {
    Reconcile(rows, incidents, job, live, Faults(true, true), 0).0 == Said(Succeeded)
  }

  /** Whatever confirms the execution has this one hash. */
  ghost predicate Certifies(rows: Rows, incidents: Db.Incidents, job: ReconcileJob, hash: string) {
    forall live: LiveRead :: live.Template? && Confirmed(rows, incidents, job, live) ==> live.hash == hash
  }

  /**
    What SUCCEEDED certifies: the live hash, exactly when a hash is expected, which then does confirm. With neither a
    hash nor a revision to go by, every live template confirms.
   */
  lemma {:induction false} ConfirmationCertifiesIff(rows: Rows, incidents: Db.Incidents, job: ReconcileJob)
    requires Ambiguous(rows, incidents, job)
    ensures var expected := ExpectedHash(rows[job.key], job);
            ((exists hash :: Certifies(rows, incidents, job, hash)) <==> expected.Some?)
            && (forall live: LiveRead :: live.Template? && expected.Some? ==>
                  (Confirmed(rows, incidents, job, live) <==> live.hash == expected.value))
            && (forall live: LiveRead :: live.Template? && expected.None? && job.targetRevision.None? ==>
                  Confirmed(rows, incidents, job, live))
  {
    hide Reconcile;
    var expected := ExpectedHash(rows[job.key], job);
    forall live: LiveRead | live.Template? {
      ReconcileConfirms(rows, incidents, job, live, 0);
    }
    if expected.Some? {
      assert Certifies(rows, incidents, job, expected.value);
    } else {
      forall hash ensures !Certifies(rows, incidents, job, hash) {
        var other := Template(hash + "x", job.targetRevision);
        assert Confirmed(rows, incidents, job, other) && other.hash != hash;
      }
    }
  }

  /** Two reconciliations of one ambiguous execution, each confirming another live hash. */
  lemma AnyHashConfirms() returns (rows: Rows, incidents: Db.Incidents, job: ReconcileJob)
    ensures Ambiguous(rows, incidents, job)
    ensures Reconcile(rows, incidents, job, Template("a", None), Faults(true, true), 0).0 == Said(Succeeded)
    ensures Reconcile(rows, incidents, job, Template("b", None), Faults(true, true), 0).0 == Said(Succeeded)
  {
    rows := map["k" := FirstClaim("w", "t", 0).(status := Unknown)];
    incidents := map["i" := Db.IncidentRow("t", UNKNOWN, 1, Db.SEV_1, 0, None, None)];
    job := ReconcileJob("i", "k", "t", true, true, None, None);
    ReconcileConfirms(rows, incidents, job, Template("a", None), 0);
    ReconcileConfirms(rows, incidents, job, Template("b", None), 0);
  }

  /** No execution ever stores an expected hash. */
  lemma DesiredNeverWritten(w: World, job: Job, env: Environment, k: string)
    requires k in w.rows ==> w.rows[k].desiredStateHash.None?
    ensures var rows := Perform(w, job, env).1.rows; k in rows ==> rows[k].desiredStateHash.None?
  {
    hide CanTransition, Settle, Record;
    if job.incidentId in w.incidents {
      var rows := ClaimFor(w, job, TenantOf(w, job), env).1;
      RecordKeepsDesired(w.rows, job.key, TenantOf(w, job), env, k);
      RecordKeepsDesired(rows, job.key, TenantOf(w, job), env, k);
    }
  }

  lemma RecordKeepsDesired(rows: Rows, key: string, tenant: string, env: Environment, k: string)
    requires k in rows ==> rows[k].desiredStateHash.None?
    ensures var after := Record(rows, key, tenant, env); k in after ==> after[k].desiredStateHash.None?
  {
  }

  /**
    The reconciliation of an ambiguous execution leaves the three records in agreement exactly when the cluster
    could not be read, the row could not be written, or the live state matches and the incident could be moved.
    On a mismatch the table has no edge from UNKNOWN to EXECUTION_FAILED, so a row that could be written says
    FAILED while answer and incident stay UNKNOWN.
   */
  lemma ReconcileAgreesIff(rows: Rows, incidents: Db.Incidents, job: ReconcileJob, live: LiveRead,
      faults: Faults, now: int)
    requires Ambiguous(rows, incidents, job)
    ensures var (r, rows', incidents') := Reconcile(rows, incidents, job, live, faults, now);
            r.Said?
            && (Reconciled(r.status, rows'[job.key].status, incidents'[job.incidentId].state)
                <==> live.ReadFailed?
                     || (live.Template?
                          && (!faults.rowLands || (Matches(rows[job.key], job, live) && faults.transitionLands))))
            && (live.Template? && faults.rowLands && !Matches(rows[job.key], job, live) ==>
                  r == Said(Unknown) && rows'[job.key].status == Failed && incidents'[job.incidentId].state == UNKNOWN)
            && (live.NoTemplate? ==> r == Said(Failed) && rows' == rows && incidents' == incidents)
  {
    assert CanTransition(UNKNOWN, VERIFYING) && !CanTransition(UNKNOWN, EXECUTION_FAILED);
  }

  /** One such mismatch, with no fault at all. */
  lemma MismatchParts() returns (rows: Rows, incidents: Db.Incidents, job: ReconcileJob)
    ensures Ambiguous(rows, incidents, job)
    ensures var (r, rows', incidents') :=
                  Reconcile(rows, incidents, job, Template("live", None), Faults(true, true), 0);
            r == Said(Unknown) && rows'[job.key].status == Failed && incidents'[job.incidentId].state == UNKNOWN
  {
    var e := FirstClaim("w", "t", 0).(status := Unknown);
    rows := map["k" := e];
    incidents := map["i" := Db.IncidentRow("t", UNKNOWN, 1, Db.SEV_1, 0, None, None)];
    job := ReconcileJob("i", "k", "t", true, true, Some("expected"), None);
    assert "live"[0] != "expected"[0];
    ReconcileAgreesIff(rows, incidents, job, Template("live", None), Faults(true, true), 0);
  }
}
