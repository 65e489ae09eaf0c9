/**
  The incident rows of the database (packages/database/src/repository.ts: createIncident,
  transitionState, updateIncident). Each method is one atomic step.
 */
module IncidentDb {
  import opened Wrappers
  import opened Lifecycle

  datatype Severity = SEV_1 | SEV_2 | SEV_3 | SEV_4

  datatype IncidentRow = IncidentRow(
    tenantId: string,
    state: State,
    version: nat,
    severity: Severity,
    createdAt: int,
    resolvedAt: Option<int>,
    mttrSeconds: Option<int>)

  /** Preconditions of a transition; an empty tenant is no tenant. */
  datatype Options = Options(tenantId: string, expectedVersion: Option<nat>)

  datatype Refusal = NotFound | Duplicate | TenantForbidden | StaleState | IllegalTransition

  function Seconds(ms: int): int { (ms + 500) / 1000 }

  function Max(a: int, b: int): int { if a < b then b else a }

  function TenantOr(t: string): string { if t == "" then "tenant-eu-default" else t }

  function CreateRow(row: Option<IncidentRow>, tenantId: string, severity: Severity, now: int)
    : Result<IncidentRow, Refusal>
  {
    if row.Some? then Err(Duplicate)
    else Ok(IncidentRow(TenantOr(tenantId), DETECTED, 1, severity, now, None, None))
  }

  function TransitionRow(row: Option<IncidentRow>, target: State, options: Options, now: int)
    : Result<IncidentRow, Refusal>
  {
    if row.None? then Err(NotFound)
    else
      var current := row.value;
      if options.tenantId != "" && current.tenantId != options.tenantId then Err(TenantForbidden)
      else if options.expectedVersion.Some? && current.version != options.expectedVersion.value then Err(StaleState)
      else if current.state == target then Ok(current)
      else if !CanTransition(current.state, target) then Err(IllegalTransition)
      else
        var first := target == RESOLVED && current.resolvedAt.None?;
        Ok(current.(
          state := target,
          version := current.version + 1,
          resolvedAt := if first then Some(now) else current.resolvedAt,
          mttrSeconds := if first then Some(Max(1, Seconds(now - current.createdAt))) else current.mttrSeconds))
  }

  /** updateIncident never moves the state: it writes the caller's state only where it is already stored. */
  function UpdateRow(row: Option<IncidentRow>, state: State, severity: Severity, mttr: Option<int>)
    : Result<IncidentRow, Refusal>
  {
    if row.None? then Err(NotFound)
    else
      var current := row.value;
      Ok(current.(
        severity := severity,
        mttrSeconds := if mttr.Some? then mttr else current.mttrSeconds,
        state := if current.state == state then state else current.state))
  }

  type Incidents = map<string, IncidentRow>

  function Find(rows: Incidents, id: string): Option<IncidentRow> {
    if id in rows then Some(rows[id]) else None
  }

  function Store(rows: Incidents, id: string, r: Result<IncidentRow, Refusal>): Incidents {
    if r.Ok? then rows[id := r.value] else rows
  }

  function Transition(rows: Incidents, id: string, target: State, options: Options, now: int): Incidents {
    Store(rows, id, TransitionRow(Find(rows, id), target, options, now))
  }

  class IncidentTable {
    var rows: Incidents

    constructor ()
      ensures rows == map[]
    {
      rows := map[];
    }

    /** A second row for one id is refused by the primary key. */
    method CreateIncident(id: string, tenantId: string, severity: Severity, now: int)
      returns (r: Result<IncidentRow, Refusal>)
      modifies this
      ensures r == CreateRow(Find(old(rows), id), tenantId, severity, now)
      ensures rows == Store(old(rows), id, r)
    {
      if id in rows {
        return Err(Duplicate);
      }
      var created := IncidentRow(TenantOr(tenantId), DETECTED, 1, severity, now, None, None);
      rows := rows[id := created];
      return Ok(created);
    }

    method TransitionState(id: string, target: State, options: Options, now: int)
      returns (r: Result<IncidentRow, Refusal>)
      modifies this
      ensures r == TransitionRow(Find(old(rows), id), target, options, now)
      ensures rows == Transition(old(rows), id, target, options, now)
    {
      hide CanTransition;
      if id !in rows {
        return Err(NotFound);
      }
      var current := rows[id];
      if options.tenantId != "" && current.tenantId != options.tenantId {
        return Err(TenantForbidden);
      }
      if options.expectedVersion.Some? && current.version != options.expectedVersion.value {
        return Err(StaleState);
      }
      if current.state == target {
        rows := rows[id := current];
        return Ok(current);
      }
      if !CanTransition(current.state, target) {
        return Err(IllegalTransition);
      }
      var resolvedAt, mttr := current.resolvedAt, current.mttrSeconds;
      if target == RESOLVED && resolvedAt.None? {
        resolvedAt := Some(now);
        mttr := Some(Max(1, Seconds(now - current.createdAt)));
      }
      var updated := current.(state := target, version := current.version + 1,
          resolvedAt := resolvedAt, mttrSeconds := mttr);
      rows := rows[id := updated];
      return Ok(updated);
    }

    method UpdateIncident(id: string, state: State, severity: Severity, mttr: Option<int>)
      returns (r: Result<IncidentRow, Refusal>)
      modifies this
      ensures r == UpdateRow(Find(old(rows), id), state, severity, mttr)
      ensures rows == Store(old(rows), id, r)
    {
      if id !in rows {
        return Err(NotFound);
      }
      var current := rows[id];
      var updated := current.(severity := severity);
      if mttr.Some? {
        updated := updated.(mttrSeconds := mttr);
      }
      if current.state == state {
        updated := updated.(state := state);
      }
      rows := rows[id := updated];
      return Ok(updated);
    }
  }

  /** What a transition can and cannot change. */
  lemma TransitionEffect(row: IncidentRow, target: State, options: Options, now: int)
    requires TransitionRow(Some(row), target, options, now).Ok?
    ensures var r := TransitionRow(Some(row), target, options, now).value;
            r.state == target && r.tenantId == row.tenantId
            && r.severity == row.severity && r.createdAt == row.createdAt
            && r.version == row.version + (if row.state == target then 0 else 1)
            && (row.state != target ==> CanTransition(row.state, target))
            && (row.resolvedAt.Some? ==> r.resolvedAt == row.resolvedAt && r.mttrSeconds == row.mttrSeconds)
            && (row.resolvedAt.None? ==>
                 r.resolvedAt == if target == RESOLVED && row.state != RESOLVED then Some(now) else None)
            && (r.resolvedAt != row.resolvedAt ==> r.mttrSeconds.Some? && r.mttrSeconds.value >= 1)
  {
  }

  /** When a transition is refused, and why; of several reasons the first in this order is told. */
  lemma RefusedIff(row: IncidentRow, target: State, options: Options, now: int)
    ensures var r := TransitionRow(Some(row), target, options, now);
            var foreign := options.tenantId != "" && row.tenantId != options.tenantId;
            var outdated := options.expectedVersion.Some? && options.expectedVersion.value != row.version;
            (r == Err(TenantForbidden) <==> foreign)
            && (r == Err(StaleState) <==> !foreign && outdated)
            && (r == Err(IllegalTransition)
                <==> !foreign && !outdated && row.state != target && !CanTransition(row.state, target))
            && (r.Err? ==> r.error in {TenantForbidden, StaleState, IllegalTransition})
            && TransitionRow(None, target, options, now) == Err(NotFound)
  {
  }

  /**
    The recovery time that the first resolution stores: whole seconds since the creation, rounded, and at least
    one.
   */
  lemma ResolutionTime(row: IncidentRow, options: Options, now: int)
    requires TransitionRow(Some(row), RESOLVED, options, now).Ok? && row.state != RESOLVED && row.resolvedAt.None?
    ensures var m := TransitionRow(Some(row), RESOLVED, options, now).value.mttrSeconds;
            var ms := now - row.createdAt;
            m.Some? && m.value >= 1 && m.value * 1000 - 500 <= (if ms < 1000 then 1000 else ms) < m.value * 1000 + 500
  {
    hide CanTransition;
  }

  /** A new row: of the tenant given, or of the default one, in the first version of DETECTED. */
  lemma CreatedRow(row: Option<IncidentRow>, tenantId: string, severity: Severity, now: int)
    ensures CreateRow(row, tenantId, severity, now).Ok? <==> row.None?
    ensures row.None? ==>
              var r := CreateRow(row, tenantId, severity, now).value;
              (tenantId != "" ==> r.tenantId == tenantId) && (tenantId == "" ==> r.tenantId == "tenant-eu-default")
              && r.state == DETECTED && r.version == 1 && r.severity == severity && r.createdAt == now
              && r.resolvedAt.None? && r.mttrSeconds.None?
    ensures row.Some? ==> CreateRow(row, tenantId, severity, now) == Err(Duplicate)
  {
  }

  /** What an update can change: the severity, and the recovery time if it brings one. */
  lemma UpdateEffect(row: IncidentRow, state: State, severity: Severity, mttr: Option<int>)
    ensures var r := UpdateRow(Some(row), state, severity, mttr);
            r.Ok? && r.value.severity == severity && (mttr.Some? ==> r.value.mttrSeconds == mttr)
            && r.value == row.(severity := severity, mttrSeconds := r.value.mttrSeconds)
            && (mttr.None? ==> r.value.mttrSeconds == row.mttrSeconds)
    ensures UpdateRow(None, state, severity, mttr) == Err(NotFound)
  {
  }
}
