/**
  Multi-party approval of one proposal by concurrent approvers: approveProposal and
  rejectProposal (services/remediation-engine/src/index.ts) over recordProposal, addApproval and
  updateProposalStatus (packages/database/src/repository.ts).

  addApproval is one atomic step. An approval is three steps apart from each other: the
  proposal is read and judged, the approval is recorded, and the status is written again.
 */
module Quorum {
  import opened Wrappers
  import opened Json
  import opened Policy
  import Text
  import Lifecycle
  import IncidentDb

  datatype ProposalStatus = Proposed | PendingApproval | Approved | Rejected

  datatype Approval = Approval(subject: string, role: Role, tenantId: string, proposalHash: string)

  datatype ProposalRow = ProposalRow(
    tenantId: string,
    proposalHash: string,
    expiresAt: Option<int>,
    status: ProposalStatus,
    approvals: seq<Approval>,
    idempotencyKey: string)

  datatype Refusal =
    | NotFound | TenantForbidden | ApprovalExpired | StaleProposal | DuplicateApprover | PolicyDenied | Unauthorized
    | IncidentNotMoved | TimelineFailed

  // ---------------------------------------------------------------- recordProposal

  /** What recordProposal is handed; an absent hash is empty. */
  datatype Submission = Submission(
    proposal: Proposal,
    proposalHash: string,
    expiresAt: Option<int>,
    expiresInSeconds: Option<int>,
    status: Option<ProposalStatus>,
    idempotencyKey: string)

  const DEFAULT_TENANT := "tenant-eu-default"

  function TextOr(s: string, default: string): string { if s == "" then default else s }

  function RiskName(r: Risk): string {
    match r case LOW => "LOW" case MEDIUM => "MEDIUM" case HIGH => "HIGH" case CRITICAL => "CRITICAL"
  }

  /** The content that is hashed when the caller supplies no hash; it is not the content that approvers hash. */
  function FallbackContent(p: Proposal): Value {
    Obj([Field("action", Str(ActionName(p.action))),
         Field("targetResource", Str(p.targetResource)),
         Field("parameters", p.parameters)]
        + (if p.risk.Some? then [Field("risk", Str(RiskName(p.risk.value)))] else [])
        + [Field("environment", Str(p.environment))])
  }

  function FallbackHash(h: Hash, p: Proposal): string { h(Print(FallbackContent(p))) }

  /**
    The row that is stored, with its fallbacks: the tenant to the environment, the hash to that of the fallback
    content.
   */
  function RecordRow(h: Hash, x: Submission, tenantId: string, now: int): ProposalRow {
    ProposalRow(
      TextOr(tenantId, TextOr(x.proposal.environment, DEFAULT_TENANT)),
      TextOr(x.proposalHash, FallbackHash(h, x.proposal)),
      if x.expiresAt.Some? then x.expiresAt
      else if x.expiresInSeconds.Some? then Some(now + 1000 * x.expiresInSeconds.value)
      else None,
      if x.status.Some? then x.status.value else Proposed,
      [],
      x.idempotencyKey)
  }

  /** The deadline of a stored row: the given one, or so many seconds from now, or none. */
  lemma RecordedDeadline(h: Hash, x: Submission, tenantId: string, now: int)
    ensures var row := RecordRow(h, x, tenantId, now);
            (x.expiresAt.Some? ==> row.expiresAt == x.expiresAt)
            && (x.expiresAt.None? && x.expiresInSeconds.Some? ==>
                  row.expiresAt.Some? && row.expiresAt.value - now == 1000 * x.expiresInSeconds.value)
            && (row.expiresAt.None? <==> x.expiresAt.None? && x.expiresInSeconds.None?)
            && row.status == (match x.status case Some(status) => status case None => Proposed)
            && row.approvals == [] && row.idempotencyKey == x.idempotencyKey
            && (tenantId != "" ==> row.tenantId == tenantId)
            && (tenantId == "" && x.proposal.environment != "" ==> row.tenantId == x.proposal.environment)
            && (tenantId == "" && x.proposal.environment == "" ==> row.tenantId == "tenant-eu-default")
            && (x.proposalHash != "" ==> row.proposalHash == x.proposalHash)
  {
  }

  // ---------------------------------------------------------------- addApproval

  function Subjects(approvals: seq<Approval>): set<string> {
    set i | 0 <= i < |approvals| :: approvals[i].subject
  }

  datatype Recorded = Recorded(row: ProposalRow, quorumSatisfied: bool, distinctApprovers: nat)

  function AddApprovalRow(row: Option<ProposalRow>, a: Approval, requiredQuorum: nat, now: int)
    : Result<Recorded, Refusal>
  {
    if row.None? then Err(NotFound)
    else
      var r := row.value;
      if r.tenantId != "" && r.tenantId != a.tenantId then Err(TenantForbidden)
      else if r.expiresAt.Some? && r.expiresAt.value < now then Err(ApprovalExpired)
      else if r.proposalHash != a.proposalHash then Err(StaleProposal)
      else if a.subject in Subjects(r.approvals) then Err(DuplicateApprover)
      else
        var all := r.approvals + [a];
        var satisfied := |Subjects(all)| >= (if requiredQuorum == 0 then 1 else requiredQuorum);
        Ok(Recorded(r.(approvals := all, status := if satisfied then Approved else r.status),
           satisfied, |Subjects(all)|))
  }

  /** With distinct subjects the set has as many members as there are approvals. */
  lemma {:induction false} DistinctCount(approvals: seq<Approval>)
    requires Distinct(approvals)
    ensures |Subjects(approvals)| == |approvals|
  {
    if approvals == [] {
      assert Subjects(approvals) == {};
    } else {
      var n := |approvals| - 1;
      var rest := approvals[..n];
      DistinctCount(rest);
      assert approvals[n].subject !in Subjects(rest);
      assert Subjects(approvals) == Subjects(rest) + {approvals[n].subject};
    }
  }

  predicate Distinct(approvals: seq<Approval>) {
    forall i, j :: 0 <= i < j < |approvals| ==> approvals[i].subject != approvals[j].subject
  }

  /**
    When an approval is recorded: its tenant, hash and time are right and its subject is new. The status of the
    proposal does not matter, so one that was rejected can still be approved. The quorum is
    reached exactly when the approvals are as many as asked for, and at least one.
   */
  lemma {:induction false} RecordedIff(r: ProposalRow, a: Approval, requiredQuorum: nat, now: int)
    requires Distinct(r.approvals)
    ensures AddApprovalRow(Some(r), a, requiredQuorum, now).Ok?
            <==> (r.tenantId == "" || r.tenantId == a.tenantId) && (r.expiresAt.Some? ==> now <= r.expiresAt.value)
                 && a.proposalHash == r.proposalHash
                 && forall i :: 0 <= i < |r.approvals| ==> r.approvals[i].subject != a.subject
    ensures var x := AddApprovalRow(Some(r), a, requiredQuorum, now);
            x.Ok? ==>
              var t := x.value.row;
              t == r.(approvals := r.approvals + [a], status := t.status) && Distinct(t.approvals)
              && x.value.distinctApprovers == |t.approvals|
              && (x.value.quorumSatisfied <==> |t.approvals| >= requiredQuorum)
              && t.status == if x.value.quorumSatisfied then Approved else r.status
  {
    assert forall i :: 0 <= i < |r.approvals| ==> r.approvals[i].subject in Subjects(r.approvals);
    var x := AddApprovalRow(Some(r), a, requiredQuorum, now);
    if x.Ok? {
      DistinctCount(x.value.row.approvals);
    }
  }

  /** Why an approval is not recorded; of several reasons the first in this order is told. */
  lemma {:induction false} NotRecordedBecause(r: ProposalRow, a: Approval, requiredQuorum: nat, now: int)
    ensures var answer := AddApprovalRow(Some(r), a, requiredQuorum, now);
            var tenant := r.tenantId == "" || r.tenantId == a.tenantId;
            var late := r.expiresAt.Some? && r.expiresAt.value < now;
            var stale := r.proposalHash != a.proposalHash;
            (answer == Err(TenantForbidden) <==> !tenant)
            && (answer == Err(ApprovalExpired) <==> tenant && late)
            && (answer == Err(StaleProposal) <==> tenant && !late && stale)
            && (answer == Err(DuplicateApprover)
                <==> tenant && !late && !stale && exists b :: b in r.approvals && b.subject == a.subject)
            && AddApprovalRow(None, a, requiredQuorum, now) == Err(NotFound)
  {
    if b :| b in r.approvals && b.subject == a.subject {
      var i :| 0 <= i < |r.approvals| && r.approvals[i] == b;
      assert r.approvals[i].subject in Subjects(r.approvals);
    }
    if a.subject in Subjects(r.approvals) {
      var i :| 0 <= i < |r.approvals| && r.approvals[i].subject == a.subject;
      assert r.approvals[i] in r.approvals;
    }
  }

  type Rows = map<string, ProposalRow>

  function Find(rows: Rows, id: string): Option<ProposalRow> {
    if id in rows then Some(rows[id]) else None
  }

  function SetStatus(row: ProposalRow, status: ProposalStatus): ProposalRow { row.(status := status) }

  class ProposalTable {
    var rows: Rows

    constructor ()
      ensures rows == map[]
    {
      rows := map[];
    }

    /** A second row for one id or one idempotency key is refused by the schema and reported as a duplicate. */
    method RecordProposal(h: Hash, id: string, x: Submission, tenantId: string, now: int) returns (isDuplicate: bool)
      modifies this
      ensures isDuplicate <==>
              exists i :: i in old(rows) && (i == id || old(rows)[i].idempotencyKey == x.idempotencyKey)
      ensures rows == if isDuplicate then old(rows) else old(rows)[id := RecordRow(h, x, tenantId, now)]
    {
      if exists i :: i in rows && (i == id || rows[i].idempotencyKey == x.idempotencyKey) {
        return true;
      }
      var tid := if tenantId != "" then tenantId
          else if x.proposal.environment != "" then x.proposal.environment else DEFAULT_TENANT;
      var proposalHash := if x.proposalHash != "" then x.proposalHash else FallbackHash(h, x.proposal);
      var expiresAt := x.expiresAt;
      if expiresAt.None? && x.expiresInSeconds.Some? {
        expiresAt := Some(now + 1000 * x.expiresInSeconds.value);
      }
      var status := if x.status.Some? then x.status.value else Proposed;
      rows := rows[id := ProposalRow(tid, proposalHash, expiresAt, status, [], x.idempotencyKey)];
      return false;
    }

    method AddApproval(id: string, a: Approval, requiredQuorum: nat, now: int) returns (r: Result<Recorded, Refusal>)
      modifies this
      ensures r == AddApprovalRow(if id in old(rows) then Some(old(rows)[id]) else None, a, requiredQuorum, now)
      ensures rows == if r.Ok? then old(rows)[id := r.value.row] else old(rows)
    {
      if id !in rows {
        return Err(NotFound);
      }
      var proposal := rows[id];
      if proposal.tenantId != "" && proposal.tenantId != a.tenantId {
        return Err(TenantForbidden);
      }
      if proposal.expiresAt.Some? && proposal.expiresAt.value < now {
        return Err(ApprovalExpired);
      }
      if proposal.proposalHash != a.proposalHash {
        return Err(StaleProposal);
      }
      if a.subject in Subjects(proposal.approvals) {
        return Err(DuplicateApprover);
      }
      var updated := proposal.(approvals := proposal.approvals + [a]);
      var distinct := |Subjects(updated.approvals)|;
      var satisfied := distinct >= if requiredQuorum == 0 then 1 else requiredQuorum;
      if satisfied {
        updated := updated.(status := Approved);
      }
      rows := rows[id := updated];
      return Ok(Recorded(updated, satisfied, distinct));
    }

    /** A missing row is ignored. */
    method UpdateProposalStatus(id: string, status: ProposalStatus)
      modifies this
      ensures rows == if id in old(rows) then old(rows)[id := SetStatus(old(rows)[id], status)] else old(rows)
    {
      if id in rows {
        rows := rows[id := rows[id].(status := status)];
      }
    }
  }

  // ---------------------------------------------------------------- approveProposal up to the transaction

  datatype Approver = Approver(id: string, email: string, roles: seq<Role>)

  /** What an approver's call reads: the proposal, its deadline if it is mapped, the incident's tenant. */
  datatype View = View(proposal: Proposal, expiresAt: Option<int>, tenantId: string)

  datatype Request = Request(approval: Approval, requiredQuorum: nat)

  const TTL_MS := 900000

  function Subject(u: Approver): string { if u.id != "" then u.id else u.email }

  /** approver.roles.some(role => canApproveRisk(role, risk)) */
  predicate Authorized(u: Approver, risk: Risk) {
    exists i :: 0 <= i < |u.roles| && CanApproveRisk(u.roles[i], risk)
  }

  /** The approval that a call sends, with the first of the approver's roles. */
  function ApprovalOf(h: Hash, view: View, u: Approver): Approval {
    Approval(Subject(u), if u.roles == [] then Sre else u.roles[0], TextOr(view.tenantId, DEFAULT_TENANT),
             ComputeProposalHash(h, view.proposal))
  }

  function Prepare(h: Hash, view: View, u: Approver, now: int): Result<Request, Refusal> {
    var policy := EvaluateProposal(view.proposal);
    if !policy.allowed then Err(PolicyDenied)
    else if !Authorized(u, policy.riskClass) then Err(Unauthorized)
    else
      var expiresAt := if view.expiresAt.Some? then view.expiresAt.value else now + TTL_MS;
      if now >= expiresAt then Err(ApprovalExpired)
      else Ok(Request(ApprovalOf(h, view, u), policy.requiredQuorum))
  }

  /**
    An approver gets as far as the transaction exactly when the policy allows the proposal, one of the
    approver's roles may approve its effective risk, and the deadline that was read, if any, is ahead.
   */
  lemma {:induction false} PreparedIff(h: Hash, view: View, u: Approver, now: int)
    ensures Prepare(h, view, u, now).Ok?
            <==> EvaluateProposal(view.proposal).allowed
                 && (view.expiresAt.Some? ==> now < view.expiresAt.value)
                 && exists role :: role in u.roles && CanApproveRisk(role, EvaluateProposal(view.proposal).riskClass)
  {
    hide EvaluateProposal, CanApproveRisk, ComputeProposalHash;
    var risk := EvaluateProposal(view.proposal).riskClass;
    if role :| role in u.roles && CanApproveRisk(role, risk) {
      var i :| 0 <= i < |u.roles| && u.roles[i] == role;
      assert Authorized(u, risk);
    }
  }

  /** What a prepared approval says, and why one is not prepared. */
  lemma {:induction false} PreparedMeans(h: Hash, view: View, u: Approver, now: int)
    ensures var r := Prepare(h, view, u, now);
            var policy := EvaluateProposal(view.proposal);
            var may := exists role :: role in u.roles && CanApproveRisk(role, policy.riskClass);
            (r == Err(PolicyDenied) <==> !policy.allowed)
            && (r == Err(Unauthorized) <==> policy.allowed && !may)
            && (r == Err(ApprovalExpired)
                <==> policy.allowed && may && view.expiresAt.Some? && view.expiresAt.value <= now)
            && (r.Ok? ==>
                  r.value.requiredQuorum == policy.requiredQuorum
                  && r.value.approval.proposalHash == ComputeProposalHash(h, view.proposal)
                  && r.value.approval.subject == (if u.id == "" then u.email else u.id)
                  && r.value.approval.tenantId == (if view.tenantId == "" then "tenant-eu-default" else view.tenantId)
                  && r.value.approval.role == (if u.roles == [] then Sre else u.roles[0]))
  {
    hide EvaluateProposal, CanApproveRisk, ComputeProposalHash;
    var risk := EvaluateProposal(view.proposal).riskClass;
    if role :| role in u.roles && CanApproveRisk(role, risk) {
      var i :| 0 <= i < |u.roles| && u.roles[i] == role;
      assert Authorized(u, risk);
    }
  }

  // ---------------------------------------------------------------- approveProposal as one call

  function StatusFor(satisfied: bool): ProposalStatus { if satisfied then Approved else PendingApproval }

  const NO_OPTIONS := IncidentDb.Options("", None)

  /** The incident follows the approval; `read` is its state when the call began. */
  function MoveIncident(row: Option<IncidentDb.IncidentRow>, read: Lifecycle.State, satisfied: bool, now: int)
    : Result<Option<IncidentDb.IncidentRow>, IncidentDb.Refusal>
  {
    var target :=
      if satisfied && (read == Lifecycle.REMEDIATION_PROPOSED || read == Lifecycle.AWAITING_APPROVAL)
      then Some(Lifecycle.APPROVED)
      else if !satisfied && read == Lifecycle.REMEDIATION_PROPOSED then Some(Lifecycle.AWAITING_APPROVAL)
      else None;
    if target.None? then Ok(row)
    else
      var moved := IncidentDb.TransitionRow(row, target.value, NO_OPTIONS, now);
      var settled :=
        if moved.Err? && satisfied then IncidentDb.TransitionRow(row, Lifecycle.AWAITING_APPROVAL, NO_OPTIONS, now)
        else moved;
      if settled.Err? then Err(settled.error) else Ok(Some(settled.value))
  }

  /** Clocks of the judgement and of the transaction, and the fate of the two writes that follow. */
  datatype Environment = Environment(judged: int, recorded: int, timelineLands: bool, statusLands: bool)

  class RemediationEngine {
    const table: ProposalTable
    const incidents: IncidentDb.IncidentTable

    constructor (table: ProposalTable, incidents: IncidentDb.IncidentTable)
      ensures this.table == table && this.incidents == incidents
    {
      this.table := table;
      this.incidents := incidents;
    }

    method TransitionIncident(id: string, read: Lifecycle.State, satisfied: bool, now: int) returns (ok: bool)
      requires id in incidents.rows
      modifies incidents
      ensures var moved := MoveIncident(Some(old(incidents.rows)[id]), read, satisfied, now);
              ok == moved.Ok?
              && (ok ==> moved.value.Some?)
              && incidents.rows == if ok then old(incidents.rows)[id := moved.value.value] else old(incidents.rows)
    {
      hide IncidentDb.TransitionRow;
      if satisfied {
        if read == Lifecycle.REMEDIATION_PROPOSED || read == Lifecycle.AWAITING_APPROVAL {
          var moved := incidents.TransitionState(id, Lifecycle.APPROVED, NO_OPTIONS, now);
          if moved.Err? {
            moved := incidents.TransitionState(id, Lifecycle.AWAITING_APPROVAL, NO_OPTIONS, now);
          }
          return moved.Ok?;
        }
      } else if read == Lifecycle.REMEDIATION_PROPOSED {
        var moved := incidents.TransitionState(id, Lifecycle.AWAITING_APPROVAL, NO_OPTIONS, now);
        return moved.Ok?;
      }
      return true;
    }

    /** The checks before the transaction, and the approval to be recorded. */
    method PrepareApproval(h: Hash, view: View, u: Approver, now: int) returns (r: Result<Request, Refusal>)
      ensures r == Prepare(h, view, u, now)
    {
      hide EvaluateProposal, ComputeProposalHash;
      var policy := EvaluateProposal(view.proposal);
      if !policy.allowed {
        return Err(PolicyDenied);
      }
      if !Authorized(u, policy.riskClass) {
        return Err(Unauthorized);
      }
      var proposalHash := ComputeProposalHash(h, view.proposal);
      var expiresAt := if view.expiresAt.Some? then view.expiresAt.value else now + TTL_MS;
      if now >= expiresAt {
        return Err(ApprovalExpired);
      }
      var role := if u.roles == [] then Sre else u.roles[0];
      var tenant := if view.tenantId == "" then DEFAULT_TENANT else view.tenantId;
      return Ok(Request(Approval(Subject(u), role, tenant, proposalHash), policy.requiredQuorum));
    }

    /** `read` is the state of the incident that came with the view. */
    method ApproveProposal(h: Hash, incidentId: string, read: Lifecycle.State, id: string, view: View,
                           u: Approver, env: Environment)
      returns (r: Result<ProposalStatus, Refusal>)
      requires incidentId in incidents.rows
      modifies table, incidents
      ensures var request := Prepare(h, view, u, env.judged);
              if request.Err?
              then r == Err(request.error) && table.rows == old(table.rows) && incidents.rows == old(incidents.rows)
              else
                var q := request.value;
                var a := AddApprovalRow(Find(old(table.rows), id), q.approval, q.requiredQuorum, env.recorded);
                if a.Err?
                then r == Err(a.error) && table.rows == old(table.rows) && incidents.rows == old(incidents.rows)
                else
                  var moved :=
                    MoveIncident(Some(old(incidents.rows)[incidentId]), read, a.value.quorumSatisfied, env.recorded);
                  var done := moved.Ok? && env.timelineLands;
                  r == (if moved.Err? then Err(IncidentNotMoved)
                        else if !env.timelineLands then Err(TimelineFailed)
                        else Ok(StatusFor(a.value.quorumSatisfied)))
                  && table.rows == old(table.rows)[id :=
                       if done && env.statusLands then SetStatus(a.value.row, StatusFor(a.value.quorumSatisfied))
                       else a.value.row]
                  && (moved.Err? ==> incidents.rows == old(incidents.rows))
                  && (moved.Ok? ==>
                       moved.value.Some? && incidents.rows == old(incidents.rows)[incidentId := moved.value.value])
      ensures r.Ok? && read == old(incidents.rows)[incidentId].state ==>
                var row := old(incidents.rows)[incidentId];
                incidents.rows == old(incidents.rows)[incidentId :=
                  if r.value == Approved && read == Lifecycle.AWAITING_APPROVAL
                  then row.(state := Lifecycle.APPROVED, version := row.version + 1)
                  else if read == Lifecycle.REMEDIATION_PROPOSED
                  then row.(state := Lifecycle.AWAITING_APPROVAL, version := row.version + 1)
                  else row]
    {
      hide Prepare, AddApprovalRow, MoveIncident;
      var request := PrepareApproval(h, view, u, env.judged);
      if request.Err? {
        return Err(request.error);
      }
      var recorded := table.AddApproval(id, request.value.approval, request.value.requiredQuorum, env.recorded);
      if recorded.Err? {
        return Err(recorded.error);
      }
      var satisfied := recorded.value.quorumSatisfied;
      IncidentAfterApproval(incidents.rows[incidentId], satisfied, env.recorded);
      var moved := TransitionIncident(incidentId, read, satisfied, env.recorded);
      if !moved {
        return Err(IncidentNotMoved);
      }
      if !env.timelineLands {
        return Err(TimelineFailed);
      }
      if env.statusLands {
        table.UpdateProposalStatus(id, StatusFor(satisfied));
      }
      return Ok(StatusFor(satisfied));
    }
  }

  /**
    Where an approval leaves an incident nobody else moves: a sufficient one moves AWAITING_APPROVAL to APPROVED, any
    one moves REMEDIATION_PROPOSED to AWAITING_APPROVAL (the table has no edge from there to APPROVED), and
    everything else stays as it was.
   */
  lemma {:induction false} IncidentAfterApproval(row: IncidentDb.IncidentRow, satisfied: bool, now: int)
    ensures MoveIncident(Some(row), row.state, satisfied, now) == Ok(Some(
              if satisfied && row.state == Lifecycle.AWAITING_APPROVAL
              then row.(state := Lifecycle.APPROVED, version := row.version + 1)
              else if row.state == Lifecycle.REMEDIATION_PROPOSED
              then row.(state := Lifecycle.AWAITING_APPROVAL, version := row.version + 1)
              else row))
  {
    ApprovalEdges(row.state);
  }

  /** The edges of the table that an approval can use. */
  lemma ApprovalEdges(s: Lifecycle.State)
    ensures Lifecycle.CanTransition(s, Lifecycle.APPROVED) <==> s == Lifecycle.AWAITING_APPROVAL
    ensures Lifecycle.CanTransition(s, Lifecycle.AWAITING_APPROVAL) <==> Awaitable(s)
  {
    var edges := Lifecycle.AllowedTransitions(s);
    match s
    case PROPOSED | REMEDIATION_PROPOSED | REPROPOSED | AWAITING_APPROVAL => assert edges[0] in edges;
    case AUTO_EXECUTION_READY | ESCALATED => assert edges[1] in edges;
    case APPROVED => assert edges[3] in edges;
    case _ =>
  }

  predicate Awaitable(s: Lifecycle.State) {
    s == Lifecycle.PROPOSED || s == Lifecycle.REMEDIATION_PROPOSED || s == Lifecycle.APPROVED
    || s == Lifecycle.AUTO_EXECUTION_READY || s == Lifecycle.REPROPOSED || s == Lifecycle.ESCALATED
  }

  /**
    And when somebody else has moved it since `read`: only an approval that read a state before APPROVED moves
    it at all, and then by what the table allows from the state it is in by now.
   */
  lemma {:induction false} IncidentMovedMeanwhile(row: IncidentDb.IncidentRow, read: Lifecycle.State, satisfied: bool,
      now: int)
    requires read != row.state
    ensures var moved := MoveIncident(Some(row), read, satisfied, now);
            var next := row.(version := row.version + 1);
            if satisfied && read in {Lifecycle.REMEDIATION_PROPOSED, Lifecycle.AWAITING_APPROVAL} then
              if row.state == Lifecycle.APPROVED then moved == Ok(Some(row))
              else if row.state == Lifecycle.AWAITING_APPROVAL
              then moved == Ok(Some(next.(state := Lifecycle.APPROVED)))
              else if Awaitable(row.state) then moved == Ok(Some(next.(state := Lifecycle.AWAITING_APPROVAL)))
              else moved == Err(IncidentDb.IllegalTransition)
            else if !satisfied && read == Lifecycle.REMEDIATION_PROPOSED then
              if row.state == Lifecycle.AWAITING_APPROVAL then moved == Ok(Some(row))
              else if Awaitable(row.state) then moved == Ok(Some(next.(state := Lifecycle.AWAITING_APPROVAL)))
              else moved == Err(IncidentDb.IllegalTransition)
            else moved == Ok(Some(row))
  {
    ApprovalEdges(row.state);
  }

  // ---------------------------------------------------------------- the transition system

  datatype Phase =
    | Prepared
    | Counted(quorumSatisfied: bool)   // recorded; the second status write is still to come
    | Finished

  datatype Session = Session(approver: Approver, view: View, request: Request, phase: Phase)

  /** `givers[i]` and `at[i]` tell which session gave the i-th approval, and when. */
  datatype Sys = Sys(now: int, row: ProposalRow, sessions: seq<Session>, givers: seq<nat>, at: seq<int>)

  datatype Step =
    | Tick(ms: nat)
    | Begin(approver: Approver, view: View)
    | Record(session: nat)
    | WriteStatus(session: nat, landed: bool)
    | Reject(landed: bool)

  predicate Enabled(h: Hash, s: Sys, step: Step) {
    match step
    case Tick(_) => true
    case Begin(u, view) => Prepare(h, view, u, s.now).Ok?
    case Record(i) => i < |s.sessions| && s.sessions[i].phase.Prepared?
    case WriteStatus(i, _) => i < |s.sessions| && s.sessions[i].phase.Counted?
    case Reject(_) => true
  }

  function Apply(h: Hash, s: Sys, step: Step): Sys
    requires Enabled(h, s, step)
  {
    match step
    case Tick(ms) => s.(now := s.now + ms)
    case Begin(u, view) => s.(sessions := s.sessions + [Session(u, view, Prepare(h, view, u, s.now).value, Prepared)])
    case Record(i) =>
      var session := s.sessions[i];
      var r := AddApprovalRow(Some(s.row), session.request.approval, session.request.requiredQuorum, s.now);
      if r.Err? then s.(sessions := s.sessions[i := session.(phase := Finished)])
      else
        var counted := session.(phase := Counted(r.value.quorumSatisfied));
        Sys(s.now, r.value.row, s.sessions[i := counted], s.givers + [i], s.at + [s.now])
    case WriteStatus(i, landed) =>
      var session := s.sessions[i];
      s.(row := if landed then SetStatus(s.row, StatusFor(session.phase.quorumSatisfied)) else s.row,
         sessions := s.sessions[i := session.(phase := Finished)])
    case Reject(landed) => s.(row := if landed then SetStatus(s.row, Rejected) else s.row)
  }

  predicate Feasible(h: Hash, s: Sys, steps: seq<Step>)
    decreases |steps|
  {
    steps == [] || (Enabled(h, s, steps[0]) && Feasible(h, Apply(h, s, steps[0]), steps[1..]))
  }

  function After(h: Hash, s: Sys, steps: seq<Step>): Sys
    requires Feasible(h, s, steps)
    decreases |steps|
  {
    if steps == [] then s else After(h, Apply(h, s, steps[0]), steps[1..])
  }

  /** Nobody has begun. */
  function Start(row: ProposalRow, now: int): Sys { Sys(now, row, [], [], []) }

  predicate Fresh(row: ProposalRow) { row.status == Proposed && row.approvals == [] }

  /**
    One uninterrupted approval is a run: begun at the clock of its judgement, recorded at that of its transaction, and
    followed by its status write if it gets that far. It leaves the row that approveProposal leaves.
   */
  lemma {:induction false} ApprovalIsARun(h: Hash, s: Sys, view: View, u: Approver, env: Environment)
    requires s.now == env.judged <= env.recorded && Prepare(h, view, u, env.judged).Ok?
    ensures var request := Prepare(h, view, u, env.judged).value;
            var a := AddApprovalRow(Some(s.row), request.approval, request.requiredQuorum, env.recorded);
            var k := |s.sessions|;
            var steps := [Begin(u, view)] + ([Tick(env.recorded - env.judged)] + [Record(k)]);
            var write := [Begin(u, view)]
                         + ([Tick(env.recorded - env.judged)] + ([Record(k)] + [WriteStatus(k, env.statusLands)]));
            Feasible(h, s, steps)
            && After(h, s, steps).row == (if a.Err? then s.row else a.value.row)
            && (a.Ok? ==>
                  Feasible(h, s, write)
                  && After(h, s, write).row ==
                     if env.statusLands then SetStatus(a.value.row, StatusFor(a.value.quorumSatisfied))
                     else a.value.row)
  {
    hide AddApprovalRow, ApprovalOf, EvaluateProposal;
    var k := |s.sessions|;
    var tick := Tick(env.recorded - env.judged);
    var s1 := Apply(h, s, Begin(u, view));
    var s2 := Apply(h, s1, tick);
    var s3 := Apply(h, s2, Record(k));
    Chain(h, s2, Record(k), []);
    assert [Record(k)] + [] == [Record(k)];
    Chain(h, s1, tick, [Record(k)]);
    Chain(h, s, Begin(u, view), [tick] + [Record(k)]);
    if s3.sessions[k].phase.Counted? {
      var write := WriteStatus(k, env.statusLands);
      OneStep(h, s3, write);
      Chain(h, s2, Record(k), [write]);
      Chain(h, s1, tick, [Record(k)] + [write]);
      Chain(h, s, Begin(u, view), [tick] + ([Record(k)] + [write]));
    }
  }

  // ---------------------------------------------------------------- the invariant

  ghost predicate SessionOk(h: Hash, x: Session) {
    EvaluateProposal(x.view.proposal).allowed
    && Authorized(x.approver, EvaluateProposal(x.view.proposal).riskClass)
    && x.request == Request(ApprovalOf(h, x.view, x.approver), EvaluateProposal(x.view.proposal).requiredQuorum)
  }

  /** How many approvals the policy asks of what a session read: at least one. */
  function Asked(x: Session): nat { if x.request.requiredQuorum == 0 then 1 else x.request.requiredQuorum }

  /** The i-th approval was given by a session of its own, under the row's hash, in its tenant, in time. */
  ghost predicate ApprovalOk(s: Sys, i: nat)
    requires i < |s.row.approvals| == |s.givers| == |s.at|
  {
    var a := s.row.approvals[i];
    a.proposalHash == s.row.proposalHash
    && (s.row.tenantId != "" ==> a.tenantId == s.row.tenantId)
    && (s.row.expiresAt.Some? ==> s.at[i] <= s.row.expiresAt.value)
    && s.givers[i] < |s.sessions| && s.sessions[s.givers[i]].request.approval == a
  }

  /** Some giver was asked for no more approvals than there are. */
  ghost predicate QuorumMet(s: Sys) {
    exists j :: j in s.givers && j < |s.sessions| && |s.row.approvals| >= Asked(s.sessions[j])
  }

  ghost predicate Inv(h: Hash, s: Sys) {
    |s.row.approvals| == |s.givers| == |s.at|
    && (forall j :: 0 <= j < |s.sessions| ==> SessionOk(h, s.sessions[j]))
    && (forall i :: 0 <= i < |s.givers| ==> ApprovalOk(s, i))
    && Distinct(s.row.approvals)
    && (s.row.status == Approved ==> QuorumMet(s))
    && (forall j: nat :: j < |s.sessions| && s.sessions[j].phase == Counted(true) ==>
          j in s.givers && |s.row.approvals| >= Asked(s.sessions[j]))
  }

  lemma {:induction false} RecordStep(h: Hash, s: Sys, k: nat)
    requires Inv(h, s) && Enabled(h, s, Record(k))
    ensures Inv(h, Apply(h, s, Record(k)))
  {
    hide EvaluateProposal, ComputeProposalHash, Subjects, ApprovalOf;
    var t := Apply(h, s, Record(k));
    var x := s.sessions[k];
    var r := AddApprovalRow(Some(s.row), x.request.approval, x.request.requiredQuorum, s.now);
    RecordedIff(s.row, x.request.approval, x.request.requiredQuorum, s.now);
    forall j | 0 <= j < |t.sessions| ensures SessionOk(h, t.sessions[j]) {
      assert SessionOk(h, s.sessions[j]);
    }
    forall i | 0 <= i < |s.givers| ensures ApprovalOk(t, i) {
      assert ApprovalOk(s, i);
    }
    if r.Ok? {
      assert t.givers[|s.givers|] == k;
      forall j | j in s.givers ensures j in t.givers {}
    }
    MetStays(s, t);
  }

  /** Later states have at least the givers and approvals of earlier ones, and the same requests. */
  lemma MetStays(s: Sys, t: Sys)
    requires |s.sessions| <= |t.sessions| && |s.row.approvals| <= |t.row.approvals| && s.givers <= t.givers
    requires forall j :: 0 <= j < |s.sessions| ==> t.sessions[j].request == s.sessions[j].request
    ensures QuorumMet(s) ==> QuorumMet(t)
  {
    if QuorumMet(s) {
      var j :| j in s.givers && j < |s.sessions| && |s.row.approvals| >= Asked(s.sessions[j]);
      assert j in t.givers && Asked(t.sessions[j]) == Asked(s.sessions[j]);
    }
  }

  lemma {:induction false} OtherStep(h: Hash, s: Sys, step: Step)
    requires Inv(h, s) && Enabled(h, s, step) && !step.Record?
    ensures Inv(h, Apply(h, s, step))
  {
    hide EvaluateProposal, ComputeProposalHash, ApprovalOf;
    var t := Apply(h, s, step);
    forall j | 0 <= j < |t.sessions| ensures SessionOk(h, t.sessions[j]) {
      if j < |s.sessions| { assert SessionOk(h, s.sessions[j]); }
    }
    forall i | 0 <= i < |t.givers| ensures ApprovalOk(t, i) {
      assert ApprovalOk(s, i);
    }
    MetStays(s, t);
  }

  lemma {:induction false} InvStep(h: Hash, s: Sys, step: Step)
    requires Inv(h, s) && Enabled(h, s, step)
    ensures Inv(h, Apply(h, s, step))
  {
    match step
    case Record(k) => RecordStep(h, s, k);
    case _ => OtherStep(h, s, step);
  }

  lemma {:induction false} InvRun(h: Hash, s: Sys, steps: seq<Step>)
    requires Inv(h, s) && Feasible(h, s, steps)
    ensures Inv(h, After(h, s, steps)) && SameRecord(s.row, After(h, s, steps).row)
    decreases |steps|
  {
    hide Inv, SameRecord;
    RowFrame(h, s, steps);
    if steps != [] {
      InvStep(h, s, steps[0]);
      InvRun(h, Apply(h, s, steps[0]), steps[1..]);
    }
  }

  /** Tenant, hash and deadline are fixed at creation, and approvals are only ever appended. */
  lemma {:induction false} RowFrame(h: Hash, s: Sys, steps: seq<Step>)
    requires Feasible(h, s, steps)
    ensures SameRecord(s.row, After(h, s, steps).row)
    decreases |steps|
  {
    hide EvaluateProposal, ComputeProposalHash;
    if steps != [] {
      RowFrame(h, Apply(h, s, steps[0]), steps[1..]);
    }
  }

  predicate SameRecord(a: ProposalRow, b: ProposalRow) {
    b.tenantId == a.tenantId && b.proposalHash == a.proposalHash && b.expiresAt == a.expiresAt
    && a.approvals <= b.approvals
  }

  // ---------------------------------------------------------------- every run from a PROPOSED row

  /**
    The i-th approval carries the row's hash and tenant, was recorded by the deadline, and was given by
    someone of its own whose roles may approve the effective risk of what was read under that hash.
   */
  ghost predicate Proper(h: Hash, s: Sys, i: nat)
    requires i < |s.row.approvals| == |s.givers| == |s.at|
  {
    var a := s.row.approvals[i];
    a.proposalHash == s.row.proposalHash
    && (s.row.tenantId != "" ==> a.tenantId == s.row.tenantId)
    && (s.row.expiresAt.Some? ==> s.at[i] <= s.row.expiresAt.value)
    && s.givers[i] < |s.sessions|
    && (var x := s.sessions[s.givers[i]];
        a.subject == Subject(x.approver) && ComputeProposalHash(h, x.view.proposal) == s.row.proposalHash
        && Authorized(x.approver, EvaluateProposal(x.view.proposal).riskClass))
  }

  /**
    In every run from any PROPOSED row, whatever hash it stores and whatever approvers read: the approvals are
    proper, their subjects distinct, and a stored APPROVED means that they are as many as the policy asked of
    one of their givers.
   */
  lemma {:induction false} ApprovalsProper(h: Hash, row: ProposalRow, now: int, steps: seq<Step>)
    requires Fresh(row) && Feasible(h, Start(row, now), steps)
    ensures var s := After(h, Start(row, now), steps);
            SameRecord(row, s.row) && Distinct(s.row.approvals) && |s.givers| == |s.at| == |s.row.approvals|
            && (forall i :: 0 <= i < |s.row.approvals| ==> Proper(h, s, i))
            && (s.row.status == Approved ==> QuorumMet(s))
  {
    hide EvaluateProposal, ComputeProposalHash;
    InvRun(h, Start(row, now), steps);
    var s := After(h, Start(row, now), steps);
    forall i | 0 <= i < |s.row.approvals| ensures Proper(h, s, i) {
      assert ApprovalOk(s, i) && SessionOk(h, s.sessions[s.givers[i]]);
    }
  }

  // ---------------------------------------------------------------- what was approved

  /** Readers see well-formed parameters and the stored risk, which no write changes; the rest may have been edited. */
  predicate Reads(risk: Option<Risk>, step: Step) {
    step.Begin? ==> Valid(step.view.proposal.parameters) && step.view.proposal.risk == risk
  }

  predicate AllRead(risk: Option<Risk>, steps: seq<Step>) {
    forall i :: 0 <= i < |steps| ==> Reads(risk, steps[i])
  }

  ghost predicate HaveRead(risk: Option<Risk>, s: Sys) {
    forall j :: 0 <= j < |s.sessions| ==>
      Valid(s.sessions[j].view.proposal.parameters) && s.sessions[j].view.proposal.risk == risk
  }

  lemma ReadStep(h: Hash, risk: Option<Risk>, s: Sys, step: Step)
    requires Enabled(h, s, step) && HaveRead(risk, s) && Reads(risk, step)
    ensures HaveRead(risk, Apply(h, s, step))
  {
    hide EvaluateProposal, ComputeProposalHash, AddApprovalRow, Valid;
  }

  lemma AllReadTail(risk: Option<Risk>, steps: seq<Step>)
    requires AllRead(risk, steps) && steps != []
    ensures Reads(risk, steps[0]) && AllRead(risk, steps[1..])
  {
    forall i | 0 <= i < |steps[1..]| ensures Reads(risk, steps[1..][i]) { assert Reads(risk, steps[i + 1]); }
  }

  lemma {:induction false} ReadRun(h: Hash, risk: Option<Risk>, s: Sys, steps: seq<Step>)
    requires Feasible(h, s, steps) && HaveRead(risk, s) && AllRead(risk, steps)
    ensures HaveRead(risk, After(h, s, steps))
    decreases |steps|
  {
    hide HaveRead, AllRead;
    if steps != [] {
      AllReadTail(risk, steps);
      ReadStep(h, risk, s, steps[0]);
      ReadRun(h, risk, Apply(h, s, steps[0]), steps[1..]);
    }
  }

  function Needed(p: Proposal): nat {
    var q := EvaluateProposal(p).requiredQuorum;
    if q == 0 then 1 else q
  }

  /** The giver of the i-th approval saw the very content of `p` and may approve its effective risk. */
  ghost predicate Genuine(p: Proposal, s: Sys, i: nat) {
    i < |s.givers| && s.givers[i] < |s.sessions|
    && (var x := s.sessions[s.givers[i]];
        Authorized(x.approver, EvaluateProposal(p).riskClass)
        && x.view.proposal.action == p.action && x.view.proposal.targetResource == p.targetResource
        && x.view.proposal.environment == p.environment
        && ParametersOrEmpty(x.view.proposal.parameters) == ParametersOrEmpty(p.parameters)
        && Asked(x) == Needed(p))
  }

  lemma {:induction false} GiverSaw(h: Hash, p: Proposal, s: Sys, i: nat)
    requires Injective(h) && Valid(p.parameters) && Inv(h, s) && HaveRead(p.risk, s) && i < |s.givers|
    requires s.row.proposalHash == ComputeProposalHash(h, p)
    ensures Genuine(p, s, i)
  {
    hide EvaluateProposal, ComputeProposalHash;
    assert ApprovalOk(s, i);
    var x := s.sessions[s.givers[i]];
    assert SessionOk(h, x);
    EqualHashEqualVerdict(h, x.view.proposal, p);
    ProposalHashBinds(h, x.view.proposal, p);
  }

  /**
    When the row stores the hash that approvers compute for `p`, every approval is for the very content of `p` and by
    someone authorised for its effective risk, and a stored APPROVED stands for as many as the policy asks for `p`.
   */
  lemma {:induction false} QuorumOfGenuineApprovals(h: Hash, p: Proposal, row: ProposalRow, now: int, steps: seq<Step>)
    requires Injective(h) && Valid(p.parameters)
    requires Fresh(row) && row.proposalHash == ComputeProposalHash(h, p)
    requires Feasible(h, Start(row, now), steps) && AllRead(p.risk, steps)
    ensures var s := After(h, Start(row, now), steps);
            (forall i :: 0 <= i < |s.row.approvals| ==> Genuine(p, s, i))
            && (s.row.status == Approved ==> |s.row.approvals| >= Needed(p))
  {
    hide EvaluateProposal, ComputeProposalHash;
    var s := After(h, Start(row, now), steps);
    InvRun(h, Start(row, now), steps);
    ReadRun(h, p.risk, Start(row, now), steps);
    forall i | 0 <= i < |s.row.approvals| ensures Genuine(p, s, i) { GiverSaw(h, p, s, i); }
    if s.row.status == Approved {
      var j :| j in s.givers && j < |s.sessions| && |s.row.approvals| >= Asked(s.sessions[j]);
      var i :| 0 <= i < |s.givers| && s.givers[i] == j;
      assert Genuine(p, s, i);
    }
  }

  /** APPROVED on a CRITICAL action other than a restart takes two platform administrators, with different subjects. */
  lemma {:induction false} CriticalNeedsTwoAdmins(h: Hash, p: Proposal, row: ProposalRow, now: int, steps: seq<Step>)
    requires Injective(h) && Valid(p.parameters)
    requires Fresh(row) && row.proposalHash == ComputeProposalHash(h, p)
    requires Feasible(h, Start(row, now), steps) && AllRead(p.risk, steps)
    requires EvaluateProposal(p).allowed && EvaluateProposal(p).riskClass == CRITICAL && p.action != RestartPod
    requires After(h, Start(row, now), steps).row.status == Approved
    ensures var s := After(h, Start(row, now), steps);
            |s.givers| >= 2 && s.givers[0] < |s.sessions| && s.givers[1] < |s.sessions|
            && (var u, v := s.sessions[s.givers[0]].approver, s.sessions[s.givers[1]].approver;
                PlatformAdmin in u.roles && PlatformAdmin in v.roles && Subject(u) != Subject(v))
  {
    hide EvaluateProposal, ComputeProposalHash;
    QuorumOfTwo(p);
    ApprovalsProper(h, row, now, steps);
    QuorumOfGenuineApprovals(h, p, row, now, steps);
    var s := After(h, Start(row, now), steps);
    assert Genuine(p, s, 0) && Genuine(p, s, 1) && Proper(h, s, 0) && Proper(h, s, 1);
    assert s.row.approvals[0].subject != s.row.approvals[1].subject;
  }

  // ---------------------------------------------------------------- which rows can be approved at all

  /** addApproval turns the approval away whoever gives it and whenever. */
  predicate Mismatched(row: ProposalRow, a: Approval) {
    a.proposalHash != row.proposalHash || (row.tenantId != "" && a.tenantId != row.tenantId)
  }

  /**
    An approval prepared from what `view` holds is recorded on a fresh row in time exactly when it does not
    mismatch.
   */
  lemma {:induction false} MismatchIff(h: Hash, row: ProposalRow, view: View, u: Approver, requiredQuorum: nat,
      now: int)
    requires row.approvals == [] && (row.expiresAt.Some? ==> now <= row.expiresAt.value)
    ensures AddApprovalRow(Some(row), ApprovalOf(h, view, u), requiredQuorum, now).Ok?
            <==> !Mismatched(row, ApprovalOf(h, view, u))
  {
    hide ComputeProposalHash;
    RecordedIff(row, ApprovalOf(h, view, u), requiredQuorum, now);
  }

  lemma FallbackValid(p: Proposal)
    requires Valid(p.parameters)
    ensures Valid(FallbackContent(p))
  {
    var f := FallbackContent(p).fields;
    forall i, j | 0 <= i < j < |f| ensures f[i].key != f[j].key {
      assert f[i].key[0] != f[j].key[0];
    }
    assert f[2].val == p.parameters;
  }

  /** A fallback hash stands for one action on one target with one set of parameters, one risk and one environment. */
  lemma {:induction false} FallbackHashBinds(h: Hash, p: Proposal, q: Proposal)
    requires Injective(h) && Valid(p.parameters) && Valid(q.parameters)
    ensures FallbackHash(h, p) == FallbackHash(h, q) <==> p == q
  {
    if FallbackHash(h, p) == FallbackHash(h, q) {
      FallbackValid(p);
      FallbackValid(q);
      PrintInjective(FallbackContent(p), FallbackContent(q));
      var f, g := FallbackContent(p).fields, FallbackContent(q).fields;
      assert f[0] == g[0] && f[1] == g[1] && f[2] == g[2] && |f| == |g| && f[3] == g[3];
      assert p.risk.Some? ==> f[4] == g[4];
      ActionNamesDistinct(p.action, q.action);
      if p.risk.Some? { assert RiskName(p.risk.value)[0] == RiskName(q.risk.value)[0]; }
    }
  }

  /** The fourth members of the two contents have different names, or there is none. */
  lemma ContentsDiffer(p: Proposal, q: Proposal)
    ensures FallbackContent(p) != HashedContent(q)
  {
    var f, g := FallbackContent(p).fields, HashedContent(q).fields;
    assert |g| == 5 && g[3].key[0] == 'e';
    if p.risk.Some? {
      assert f[3].key[0] == 'r';
    } else {
      assert |f| == 4;
    }
  }

  /** So the two hashes are never equal, whatever they are taken of. */
  lemma {:induction false} FallbackNeverComputed(h: Hash, p: Proposal, q: Proposal)
    requires Injective(h) && Valid(p.parameters) && Valid(q.parameters)
    ensures FallbackHash(h, p) != ComputeProposalHash(h, q)
  {
    hide FallbackContent, HashedContent;
    FallbackValid(p);
    HashedContentValid(q);
    PrintInjective(FallbackContent(p), HashedContent(q));
    ContentsDiffer(p, q);
  }

  /**
    An approval can be recorded on what recordProposal stored exactly when the caller supplied the hash that the
    approver computes, and the tenant stored, with its fallback to the environment, is the approver's.
   */
  lemma {:induction false} ApprovableIff(h: Hash, x: Submission, tenantId: string, created: int, view: View,
      u: Approver, requiredQuorum: nat, now: int)
    requires Injective(h) && Valid(x.proposal.parameters) && Valid(view.proposal.parameters)
    requires var row := RecordRow(h, x, tenantId, created); row.expiresAt.Some? ==> now <= row.expiresAt.value
    ensures AddApprovalRow(Some(RecordRow(h, x, tenantId, created)), ApprovalOf(h, view, u), requiredQuorum, now).Ok?
            <==> x.proposalHash != "" && x.proposalHash == ComputeProposalHash(h, view.proposal)
                 && TextOr(tenantId, TextOr(x.proposal.environment, DEFAULT_TENANT))
                      == TextOr(view.tenantId, DEFAULT_TENANT)
  {
    hide ComputeProposalHash, FallbackHash;
    FallbackNeverComputed(h, x.proposal, view.proposal);
    MismatchIff(h, RecordRow(h, x, tenantId, created), view, u, requiredQuorum, now);
  }

  /** Every approver who begins reads something that does not match the row. */
  predicate AllMismatch(h: Hash, row: ProposalRow, steps: seq<Step>) {
    forall i :: 0 <= i < |steps| && steps[i].Begin? ==> Mismatched(row, ApprovalOf(h, steps[i].view, steps[i].approver))
  }

  ghost predicate NoneYet(row: ProposalRow, s: Sys) {
    s.row == row.(status := s.row.status) && row.approvals == []
    && (s.row.status == Proposed || s.row.status == Rejected)
    && forall j :: 0 <= j < |s.sessions| ==>
         !s.sessions[j].phase.Counted? && Mismatched(row, s.sessions[j].request.approval)
  }

  lemma {:induction false} MismatchAdmitsNone(h: Hash, row: ProposalRow, s: Sys, steps: seq<Step>)
    requires NoneYet(row, s) && Feasible(h, s, steps) && AllMismatch(h, row, steps)
    ensures NoneYet(row, After(h, s, steps))
    decreases |steps|
  {
    hide EvaluateProposal, ComputeProposalHash, ApprovalOf, Subjects;
    if steps != [] {
      assert steps[0].Begin? ==> Mismatched(row, ApprovalOf(h, steps[0].view, steps[0].approver));
      assert NoneYet(row, Apply(h, s, steps[0]));
      forall i | 0 <= i < |steps[1..]| && steps[1..][i].Begin?
        ensures Mismatched(row, ApprovalOf(h, steps[1..][i].view, steps[1..][i].approver))
      {
        assert steps[1..][i] == steps[i + 1];
      }
      MismatchAdmitsNone(h, row, Apply(h, s, steps[0]), steps[1..]);
    }
  }

  /**
    A proposal recorded without a hash, as the API and the orchestrator do, can never be approved: in every run,
    whatever approvers read, no approval is recorded and APPROVED is never stored.
   */
  lemma {:induction false} FallbackAdmitsNone(h: Hash, x: Submission, tenantId: string, created: int, now: int,
                                              steps: seq<Step>)
    requires Injective(h) && Valid(x.proposal.parameters) && x.proposalHash == ""
    requires var row := RecordRow(h, x, tenantId, created);
             row.status == Proposed && Feasible(h, Start(row, now), steps)
    requires forall i :: 0 <= i < |steps| && steps[i].Begin? ==> Valid(steps[i].view.proposal.parameters)
    ensures var s := After(h, Start(RecordRow(h, x, tenantId, created), now), steps);
            s.row.approvals == [] && (s.row.status == Proposed || s.row.status == Rejected)
  {
    hide ComputeProposalHash, FallbackHash;
    var row := RecordRow(h, x, tenantId, created);
    forall i | 0 <= i < |steps| && steps[i].Begin?
      ensures Mismatched(row, ApprovalOf(h, steps[i].view, steps[i].approver))
    {
      FallbackNeverComputed(h, x.proposal, steps[i].view.proposal);
    }
    MismatchAdmitsNone(h, row, Start(row, now), steps);
  }

  // ---------------------------------------------------------------- when APPROVED lasts

  /** A session that recorded its approval short of the quorum still owes the write of PENDING_APPROVAL. */
  ghost predicate OwesPending(s: Sys) {
    exists i :: 0 <= i < |s.sessions| && s.sessions[i].phase == Counted(false)
  }

  predicate NoRejection(steps: seq<Step>) {
    forall i :: 0 <= i < |steps| ==> !steps[i].Reject?
  }

  /** APPROVED survives every continuation without a rejection. */
  ghost predicate ApprovedLasts(h: Hash, risk: Option<Risk>, s: Sys) {
    forall steps :: Feasible(h, s, steps) && AllRead(risk, steps) && NoRejection(steps) ==>
      After(h, s, steps).row.status == Approved
  }

  /** Whoever may still record an approval is asked for as many as those who gave one. */
  lemma {:induction false} AskedAlike(h: Hash, risk: Option<Risk>, s: Sys, j: nat, k: nat)
    requires Injective(h) && Inv(h, s) && HaveRead(risk, s) && j in s.givers && k < |s.sessions|
    requires s.sessions[k].request.approval.proposalHash == s.row.proposalHash
    ensures j < |s.sessions| && Asked(s.sessions[j]) == Asked(s.sessions[k])
  {
    hide EvaluateProposal, ComputeProposalHash;
    var i :| 0 <= i < |s.givers| && s.givers[i] == j;
    assert ApprovalOk(s, i) && SessionOk(h, s.sessions[j]) && SessionOk(h, s.sessions[k]);
    EqualHashEqualVerdict(h, s.sessions[j].view.proposal, s.sessions[k].view.proposal);
  }

  lemma {:induction false} ApprovedRecord(h: Hash, risk: Option<Risk>, s: Sys, k: nat)
    requires Injective(h) && Inv(h, s) && HaveRead(risk, s) && Enabled(h, s, Record(k))
    requires s.row.status == Approved && !OwesPending(s)
    ensures Apply(h, s, Record(k)).row.status == Approved && !OwesPending(Apply(h, s, Record(k)))
  {
    hide EvaluateProposal, ComputeProposalHash, Subjects, ApprovalOf;
    var x := s.sessions[k];
    RecordedIff(s.row, x.request.approval, x.request.requiredQuorum, s.now);
    if AddApprovalRow(Some(s.row), x.request.approval, x.request.requiredQuorum, s.now).Ok? {
      var j :| j in s.givers && j < |s.sessions| && |s.row.approvals| >= Asked(s.sessions[j]);
      AskedAlike(h, risk, s, j, k);
    }
  }

  lemma {:induction false} ApprovedRun(h: Hash, risk: Option<Risk>, s: Sys, steps: seq<Step>)
    requires Injective(h) && Inv(h, s) && HaveRead(risk, s)
    requires Feasible(h, s, steps) && AllRead(risk, steps) && NoRejection(steps)
    requires s.row.status == Approved && !OwesPending(s)
    ensures After(h, s, steps).row.status == Approved
    decreases |steps|
  {
    hide Inv, HaveRead, AllRead, AddApprovalRow, EvaluateProposal, ComputeProposalHash;
    if steps != [] {
      assert !steps[0].Reject?;
      AllReadTail(risk, steps);
      InvStep(h, s, steps[0]);
      ReadStep(h, risk, s, steps[0]);
      if steps[0].Record? { ApprovedRecord(h, risk, s, steps[0].session); }
      assert NoRejection(steps[1..]) by {
        forall i | 0 <= i < |steps[1..]| ensures !steps[1..][i].Reject? { assert !steps[i + 1].Reject?; }
      }
      ApprovedRun(h, risk, Apply(h, s, steps[0]), steps[1..]);
    }
  }

  /** A stored APPROVED lasts exactly when no earlier approver's PENDING_APPROVAL is still on its way. */
  lemma {:induction false} ApprovedLastsIff(h: Hash, risk: Option<Risk>, s: Sys)
    requires Injective(h) && Inv(h, s) && HaveRead(risk, s) && s.row.status == Approved
    ensures ApprovedLasts(h, risk, s) <==> !OwesPending(s)
  {
    hide EvaluateProposal, ComputeProposalHash, AddApprovalRow, Inv, HaveRead;
    if OwesPending(s) {
      var i :| 0 <= i < |s.sessions| && s.sessions[i].phase == Counted(false);
      var step := WriteStatus(i, true);
      OneStep(h, s, step);
      assert AllRead(risk, [step]) && NoRejection([step]);
    } else {
      forall steps | Feasible(h, s, steps) && AllRead(risk, steps) && NoRejection(steps)
        ensures After(h, s, steps).row.status == Approved
      {
        ApprovedRun(h, risk, s, steps);
      }
    }
  }

  lemma OneStep(h: Hash, s: Sys, step: Step)
    requires Enabled(h, s, step)
    ensures Feasible(h, s, [step]) && After(h, s, [step]) == Apply(h, s, step)
  {
    hide Enabled, Apply;
    var t := Apply(h, s, step);
    assert [step][1..] == [];
    assert Feasible(h, t, []) && After(h, t, []) == t;
  }

  lemma {:induction false} Chain(h: Hash, s: Sys, step: Step, steps: seq<Step>)
    requires Enabled(h, s, step) && Feasible(h, Apply(h, s, step), steps)
    ensures Feasible(h, s, [step] + steps) && After(h, s, [step] + steps) == After(h, Apply(h, s, step), steps)
  {
    hide Enabled, Apply;
    assert ([step] + steps)[1..] == steps;
  }

  // ---------------------------------------------------------------- two runs

  function Example(risk: Risk): Proposal {
    Proposal(RollbackDeployment, "deployment/a", Null, "production", Some(risk))
  }

  function ExampleRow(h: Hash, risk: Risk): ProposalRow {
    ProposalRow("t", ComputeProposalHash(h, Example(risk)), None, Proposed, [], "k")
  }

  function Admin(id: string): Approver { Approver(id, "", [PlatformAdmin]) }

  lemma ExampleVerdict(risk: Risk)
    requires risk == HIGH || risk == CRITICAL
    ensures EvaluateProposal(Example(risk)).allowed && EvaluateProposal(Example(risk)).riskClass == risk
    ensures Needed(Example(risk)) == if risk == HIGH then 1 else 2
    ensures CanApproveRisk(PlatformAdmin, risk)
  {
    hide Text.Lower;
    LowerProduction();
    ApprovalAuthority(PlatformAdmin, risk, LOW);
  }

  lemma ExamplePrepared(h: Hash, risk: Risk, id: string)
    requires risk == HIGH || risk == CRITICAL
    ensures var view := View(Example(risk), None, "t");
            Prepare(h, view, Admin(id), 0)
            == Ok(Request(ApprovalOf(h, view, Admin(id)), EvaluateProposal(Example(risk)).requiredQuorum))
  {
    hide EvaluateProposal, ComputeProposalHash, CanApproveRisk;
    ExampleVerdict(risk);
    assert Authorized(Admin(id), risk) by { assert Admin(id).roles[0] == PlatformAdmin; }
  }

  /** Two administrators approve a CRITICAL rollback; the first one's status write comes last and replaces APPROVED. */
  lemma {:induction false} LatePendingOverwrites(h: Hash) returns (steps: seq<Step>, late: Step)
    ensures Fresh(ExampleRow(h, CRITICAL)) && NoRejection(steps + [late])
    ensures var start := Start(ExampleRow(h, CRITICAL), 0);
            Feasible(h, start, steps) && After(h, start, steps).row.status == Approved
            && |After(h, start, steps).row.approvals| == 2
            && Enabled(h, After(h, start, steps), late)
            && Apply(h, After(h, start, steps), late).row.status == PendingApproval
  {
    hide EvaluateProposal, ComputeProposalHash, AddApprovalRow, Prepare;
    var view := View(Example(CRITICAL), None, "t");
    ExampleVerdict(CRITICAL);
    ExamplePrepared(h, CRITICAL, "a");
    ExamplePrepared(h, CRITICAL, "b");
    var s0 := Start(ExampleRow(h, CRITICAL), 0);
    var s1 := Apply(h, s0, Begin(Admin("a"), view));
    var s2 := Apply(h, s1, Begin(Admin("b"), view));
    RecordedIff(s2.row, s2.sessions[0].request.approval, s2.sessions[0].request.requiredQuorum, 0);
    var s3 := Apply(h, s2, Record(0));
    assert s3.row.approvals == [ApprovalOf(h, view, Admin("a"))] && "a"[0] != "b"[0];
    RecordedIff(s3.row, s3.sessions[1].request.approval, s3.sessions[1].request.requiredQuorum, 0);
    var s4 := Apply(h, s3, Record(1));
    assert s4.row.status == Approved && s4.sessions[0].phase == Counted(false);
    OneStep(h, s3, Record(1));
    Chain(h, s2, Record(0), [Record(1)]);
    steps := [Record(0)] + [Record(1)];
    Chain(h, s1, Begin(Admin("b"), view), steps);
    steps := [Begin(Admin("b"), view)] + steps;
    Chain(h, s0, Begin(Admin("a"), view), steps);
    steps := [Begin(Admin("a"), view)] + steps;
    late := WriteStatus(0, true);
  }

  /** A rejected proposal is approved all the same. */
  lemma {:induction false} RejectedThenApproved(h: Hash) returns (steps: seq<Step>)
    ensures var start := Start(ExampleRow(h, HIGH), 0);
            Fresh(start.row) && Feasible(h, start, [Reject(true)] + steps)
            && Apply(h, start, Reject(true)).row.status == Rejected
            && After(h, start, [Reject(true)] + steps).row.status == Approved
  {
    hide EvaluateProposal, ComputeProposalHash, AddApprovalRow, Prepare;
    var view := View(Example(HIGH), None, "t");
    ExampleVerdict(HIGH);
    ExamplePrepared(h, HIGH, "a");
    var s0 := Start(ExampleRow(h, HIGH), 0);
    var s1 := Apply(h, s0, Reject(true));
    var s2 := Apply(h, s1, Begin(Admin("a"), view));
    RecordedIff(s2.row, s2.sessions[0].request.approval, s2.sessions[0].request.requiredQuorum, 0);
    OneStep(h, s2, Record(0));
    Chain(h, s1, Begin(Admin("a"), view), [Record(0)]);
    steps := [Begin(Admin("a"), view)] + [Record(0)];
    Chain(h, s0, Reject(true), steps);
  }
}
