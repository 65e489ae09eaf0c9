/**
  Execution rows and the claim protocol (packages/database/src/repository.ts, claimExecution
  and updateExecution). The body of a `$transaction` is one atomic step. A row is identified
  by its idempotency key, which is unique in the schema.
 */
module ExecutionStore {
  import opened Wrappers

  datatype Status = Pending | Claimed | Executing | Succeeded | Failed | Unknown | Expired

  datatype Execution = Execution(
    tenantId: string,
    status: Status,
    attempt: nat,
    claimedBy: string,
    leaseUntil: int,
    desiredStateHash: Option<string>,
    observedStateHash: Option<string>,
    errorCode: Option<string>)

  type Rows = map<string, Execution>

  datatype ClaimResult =
    | Granted(execution: Execution)
    | NotNew(execution: Execution, requiresReconciliation: bool)
    | LeaseHeld(holder: string)
    | Rethrown

  /** Statuses for which performExecution answers from the row and executes nothing. */
  predicate Settled(st: Status) {
    st == Executing || st == Unknown || st == Succeeded || st == Failed
  }

  predicate LeaseActive(e: Execution, now: int) { e.leaseUntil > now }

  function LeaseOrDefault(leaseMs: nat): nat { if leaseMs == 0 then 30000 else leaseMs }

  function FirstClaim(worker: string, tenant: string, leaseUntil: int): Execution {
    Execution(tenant, Claimed, 1, worker, leaseUntil, None, None, None)
  }

  /** The transaction of claimExecution: what it answers and the rows it leaves. */
  function ClaimTransaction(rows: Rows, key: string, worker: string, tenant: string, leaseMs: nat, now: int)
    : (ClaimResult, Rows)
  {
    var leaseUntil := now + LeaseOrDefault(leaseMs);
    if key !in rows then
      var created := FirstClaim(worker, tenant, leaseUntil);
      (Granted(created), rows[key := created])
    else
      var e := rows[key];
      match e.status
      case Succeeded => (NotNew(e, false), rows)
      case Failed => (NotNew(e, false), rows)
      case Executing => (NotNew(e, true), rows)
      case Unknown => (NotNew(e, true), rows)
      case Claimed =>
        if LeaseActive(e, now) && e.claimedBy != worker then (LeaseHeld(e.claimedBy), rows)
        else
          var renewed := e.(claimedBy := worker, leaseUntil := leaseUntil, attempt := e.attempt + 1);
          (Granted(renewed), rows[key := renewed])
      case _ => (NotNew(e, false), rows)
  }

  /** The answer after the transaction was aborted by a unique or serialization conflict. */
  function ConflictRead(rows: Rows, key: string, worker: string, now: int): ClaimResult {
    if key !in rows then Rethrown
    else if LeaseActive(rows[key], now) && rows[key].claimedBy != worker then LeaseHeld(rows[key].claimedBy)
    else NotNew(rows[key], false)
  }

  datatype Update = Update(status: Status, observedStateHash: Option<string>, errorCode: Option<string>)

  /** `undefined` fields of an update leave the column alone. */
  function Updated(e: Execution, u: Update): Execution {
    e.(status := u.status,
       observedStateHash := if u.observedStateHash.Some? then u.observedStateHash else e.observedStateHash,
       errorCode := if u.errorCode.Some? then u.errorCode else e.errorCode)
  }

  /** An update fails on a missing row and on a row of another tenant. */
  function UpdateRows(rows: Rows, tenant: string, key: string, u: Update): Rows {
    if key in rows && rows[key].tenantId == tenant then rows[key := Updated(rows[key], u)] else rows
  }

  class Store {
    var rows: Rows

    constructor ()
      ensures rows == map[]
    {
      rows := map[];
    }

    /** `aborted`: the database rejected the transaction with a conflict and wrote nothing. */
    method ClaimExecution(key: string, worker: string, tenant: string, leaseMs: nat, now: int, aborted: bool)
      returns (r: ClaimResult)
      modifies this
      ensures aborted ==> rows == old(rows) && r == ConflictRead(old(rows), key, worker, now)
      ensures !aborted ==> (r, rows) == ClaimTransaction(old(rows), key, worker, tenant, leaseMs, now)
    {
      var leaseUntil := now + LeaseOrDefault(leaseMs);
      if aborted {
        if key in rows {
          var existing := rows[key];
          if existing.leaseUntil > now && existing.claimedBy != worker {
            return LeaseHeld(existing.claimedBy);
          }
          return NotNew(existing, false);
        }
        return Rethrown;
      }
      if key !in rows {
        var created := FirstClaim(worker, tenant, leaseUntil);
        rows := rows[key := created];
        return Granted(created);
      }
      var existing := rows[key];
      if existing.status == Succeeded || existing.status == Failed {
        return NotNew(existing, false);
      }
      if existing.status == Executing || existing.status == Unknown {
        return NotNew(existing, true);
      }
      if existing.status == Claimed {
        if LeaseActive(existing, now) && existing.claimedBy != worker {
          return LeaseHeld(existing.claimedBy);
        }
        var renewed := existing.(claimedBy := worker, leaseUntil := leaseUntil, attempt := existing.attempt + 1);
        rows := rows[key := renewed];
        return Granted(renewed);
      }
      return NotNew(existing, false);
    }

    method UpdateExecution(tenant: string, key: string, u: Update) returns (ok: bool)
      modifies this
      ensures ok <==> key in old(rows) && old(rows)[key].tenantId == tenant
      ensures rows == UpdateRows(old(rows), tenant, key, u)
    {
      if key !in rows || rows[key].tenantId != tenant {
        return false;
      }
      rows := rows[key := Updated(rows[key], u)];
      return true;
    }
  }

  // ---------------------------------------------------------------- one claim

  /** A claim is granted exactly when the key is free, or claimed with no live lease of somebody else. */
  lemma GrantedIff(rows: Rows, key: string, worker: string, tenant: string, leaseMs: nat, now: int)
    ensures ClaimTransaction(rows, key, worker, tenant, leaseMs, now).0.Granted? <==>
              key !in rows
                || (rows[key].status == Claimed && (rows[key].claimedBy == worker || now >= rows[key].leaseUntil))
  {
  }

  /** The first claim of a key is granted, and creates its row. */
  lemma FirstClaimAnswers(rows: Rows, key: string, worker: string, tenant: string, leaseMs: nat, now: int)
    requires key !in rows
    ensures var (r, after) := ClaimTransaction(rows, key, worker, tenant, leaseMs, now);
            r.Granted? && after == rows[key := r.execution]
            && var e := r.execution;
               e.tenantId == tenant && e.status == Claimed && e.attempt == 1 && e.claimedBy == worker
               && e.leaseUntil == now + (if leaseMs == 0 then 30000 else leaseMs)
               && e.desiredStateHash.None? && e.observedStateHash.None? && e.errorCode.None?
  {
  }

  /** What a claim answers, granted or not, by the stored status; only a grant changes the row. */
  lemma ClaimAnswers(rows: Rows, key: string, worker: string, tenant: string, leaseMs: nat, now: int)
    requires key in rows
    ensures var (r, after) := ClaimTransaction(rows, key, worker, tenant, leaseMs, now);
            var e := rows[key];
            (e.status == Claimed && e.claimedBy != worker && now < e.leaseUntil <==> r.LeaseHeld?)
            && (r.LeaseHeld? ==> r.holder == e.claimedBy)
            && (r.NotNew? <==> e.status != Claimed)
            && (r.NotNew? ==> r.execution == e
                              && (r.requiresReconciliation <==> e.status == Executing || e.status == Unknown))
            && (!r.Granted? ==> after == rows)
            && (r.Granted? ==> after == rows[key := r.execution] && r.execution == e.(claimedBy := worker,
                   leaseUntil := now + (if leaseMs == 0 then 30000 else leaseMs), attempt := e.attempt + 1))
  {
  }

  /** An update writes its status, and the columns that it brings, to a row of its tenant; otherwise nothing. */
  lemma UpdateEffect(rows: Rows, tenant: string, key: string, u: Update)
    ensures var after := UpdateRows(rows, tenant, key, u);
            if key !in rows || rows[key].tenantId != tenant then after == rows
            else
              key in after && after == rows[key := after[key]]
              && var e, x := rows[key], after[key];
                 x == e.(status := u.status, observedStateHash := x.observedStateHash, errorCode := x.errorCode)
                 && (u.observedStateHash.Some? ==> x.observedStateHash == u.observedStateHash)
                 && (u.observedStateHash.None? ==> x.observedStateHash == e.observedStateHash)
                 && (u.errorCode.Some? ==> x.errorCode == u.errorCode)
                 && (u.errorCode.None? ==> x.errorCode == e.errorCode)
  {
  }

  /**
    An aborted claim grants nothing. It is refused exactly when another worker holds an unexpired lease on the row,
    whatever the row's status, and rethrown exactly when there is no row.
   */
  lemma AbortedClaimAnswers(rows: Rows, key: string, worker: string, now: int)
    ensures var r := ConflictRead(rows, key, worker, now);
            (r.LeaseHeld? <==> key in rows && now < rows[key].leaseUntil && rows[key].claimedBy != worker)
            && (r.LeaseHeld? ==> r.holder == rows[key].claimedBy)
            && (r.Rethrown? <==> key !in rows)
            && !r.Granted? && (r.NotNew? ==> r.execution == rows[key] && !r.requiresReconciliation)
  {
  }

  /** Of any two claims made within one lease, by different workers, at most one is granted. */
  lemma OneGrantPerLease(rows: Rows, key: string, w1: string, w2: string, tenant: string, leaseMs: nat, t1: int,
      t2: int)
    requires w1 != w2 && t1 <= t2 < t1 + LeaseOrDefault(leaseMs)
    requires ClaimTransaction(rows, key, w1, tenant, leaseMs, t1).0.Granted?
    ensures var rows1 := ClaimTransaction(rows, key, w1, tenant, leaseMs, t1).1;
            ClaimTransaction(rows1, key, w2, tenant, leaseMs, t2) == (LeaseHeld(w1), rows1)
  {
  }
}
