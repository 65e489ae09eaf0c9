/**
  The audit hash chain (packages/security/src/audit-hasher.ts) and the service that grows it
  (services/compliance-service/src/index.ts: recordAuditEvent, verifyAuditIntegrity).
 */
module AuditChain {
  import opened Wrappers
  import opened Json

  /** An absent JSON field is `Null`. */
  datatype Payload = Payload(
    timestamp: string,
    tenant: string,
    actor: string,
    action: string,
    target: string,
    requestId: string,
    incidentId: Option<string>,
    policyDecision: Value,
    approvalId: Option<string>,
    modelMetadata: Value,
    executionResult: Value)

  datatype Record = Record(previousHash: string, currentHash: string, payload: Payload)

  const GENESIS := "0000000000000000000000000000000000000000000000000000000000000000"

  /** `text || ''` and `value || null`. */
  function TextOrEmpty(t: Option<string>): string { if t.Some? then t.value else "" }
  function ValueOrNull(v: Value): Value { if Truthy(v) then v else Null }

  /** The payload with its defaults filled in: all that the hash can see of it. */
  function Defaulted(p: Payload): Payload {
    p.(incidentId := Some(TextOrEmpty(p.incidentId)),
       policyDecision := ValueOrNull(p.policyDecision),
       approvalId := Some(TextOrEmpty(p.approvalId)),
       modelMetadata := ValueOrNull(p.modelMetadata),
       executionResult := ValueOrNull(p.executionResult))
  }

  function Serialized(previousHash: string, p: Payload): Value {
    Obj([Field("previousHash", Str(previousHash)),
         Field("timestamp", Str(p.timestamp)),
         Field("tenant", Str(p.tenant)),
         Field("actor", Str(p.actor)),
         Field("action", Str(p.action)),
         Field("target", Str(p.target)),
         Field("requestId", Str(p.requestId)),
         Field("incidentId", Str(TextOrEmpty(p.incidentId))),
         Field("policyDecision", ValueOrNull(p.policyDecision)),
         Field("approvalId", Str(TextOrEmpty(p.approvalId))),
         Field("modelMetadata", ValueOrNull(p.modelMetadata)),
         Field("executionResult", ValueOrNull(p.executionResult))])
  }

  function ComputeEventHash(h: Hash, previousHash: string, p: Payload): string {
    h(Print(Serialized(previousHash, p)))
  }

  predicate ValidPayload(p: Payload) {
    Valid(p.policyDecision) && Valid(p.modelMetadata) && Valid(p.executionResult)
  }

  // ---------------------------------------------------------------- the hash sees the whole record

  lemma SerializedValid(previousHash: string, p: Payload)
    requires ValidPayload(p)
    ensures Valid(Serialized(previousHash, p))
  {
    var f := Serialized(previousHash, p).fields;
    KeysApart(previousHash, p);
    assert Valid(f[8].val) && Valid(f[10].val) && Valid(f[11].val);
  }

  lemma KeysApart(previousHash: string, p: Payload)
    ensures UniqueKeys(Serialized(previousHash, p).fields)
  {
    var f := Serialized(previousHash, p).fields;
    forall i, j | 0 <= i < j < |f| ensures f[i].key != f[j].key {
      if |f[i].key| == |f[j].key| {
        assert f[i].key[0] != f[j].key[0] || f[i].key[1] != f[j].key[1];
      }
    }
  }

  lemma {:induction false} EventHashBinds(h: Hash, x: string, p: Payload, y: string, q: Payload)
    requires Injective(h) && ValidPayload(p) && ValidPayload(q)
    ensures ComputeEventHash(h, x, p) == ComputeEventHash(h, y, q) <==> x == y && Defaulted(p) == Defaulted(q)
  {
    var f, g := Serialized(x, p).fields, Serialized(y, q).fields;
    if ComputeEventHash(h, x, p) == ComputeEventHash(h, y, q) {
      SerializedValid(x, p);
      SerializedValid(y, q);
      PrintInjective(Serialized(x, p), Serialized(y, q));
      assert f[0] == g[0] && f[1] == g[1] && f[2] == g[2] && f[3] == g[3] && f[4] == g[4] && f[5] == g[5];
      assert f[6] == g[6] && f[7] == g[7] && f[8] == g[8] && f[9] == g[9] && f[10] == g[10] && f[11] == g[11];
    }
    if x == y && Defaulted(p) == Defaulted(q) {
      var dp, dq := Defaulted(p), Defaulted(q);
      assert dp.incidentId == dq.incidentId && dp.approvalId == dq.approvalId && dp.policyDecision == dq.policyDecision;
      assert f == g;
    }
  }

  /** What `||` replaces. */
  predicate Falsy(v: Value) { v == Null || v == Bool(false) || v == Num("0") || v == Str("") }

  predicate SameText(a: Option<string>, b: Option<string>) {
    a == b || (a in {None, Some("")} && b in {None, Some("")})
  }

  predicate SameValue(a: Value, b: Value) { a == b || (Falsy(a) && Falsy(b)) }

  /** Equal payloads have equal fields, but for what `||` makes of absent, empty and false ones. */
  lemma DefaultedIff(p: Payload, q: Payload)
    ensures Defaulted(p) == Defaulted(q)
            <==> p.timestamp == q.timestamp && p.tenant == q.tenant && p.actor == q.actor && p.action == q.action
                 && p.target == q.target && p.requestId == q.requestId
                 && SameText(p.incidentId, q.incidentId) && SameText(p.approvalId, q.approvalId)
                 && SameValue(p.policyDecision, q.policyDecision) && SameValue(p.modelMetadata, q.modelMetadata)
                 && SameValue(p.executionResult, q.executionResult)
  {
    var dp, dq := Defaulted(p), Defaulted(q);
    assert dp == dq <==> dp.timestamp == dq.timestamp && dp.tenant == dq.tenant && dp.actor == dq.actor
                         && dp.action == dq.action && dp.target == dq.target && dp.requestId == dq.requestId
                         && dp.incidentId == dq.incidentId && dp.approvalId == dq.approvalId
                         && dp.policyDecision == dq.policyDecision && dp.modelMetadata == dq.modelMetadata
                         && dp.executionResult == dq.executionResult;
  }

  // ---------------------------------------------------------------- chains

  function Head(records: seq<Record>): string {
    if records == [] then GENESIS else records[|records| - 1].currentHash
  }

  /** Every record points at the one before it and carries the hash of its own contents. */
  predicate Linked(h: Hash, records: seq<Record>) {
    forall i :: 0 <= i < |records| ==> LinkOk(h, records, i)
  }

  predicate LinkOk(h: Hash, records: seq<Record>, i: nat)
    requires i < |records|
  {
    records[i].previousHash == Head(records[..i])
    && records[i].currentHash == ComputeEventHash(h, records[i].previousHash, records[i].payload)
  }

  method VerifyChain(h: Hash, records: seq<Record>) returns (ok: bool)
    ensures ok <==> Linked(h, records)
  {
    var expectedPrevious := GENESIS;
    for i := 0 to |records|
      invariant expectedPrevious == Head(records[..i])
      invariant forall j :: 0 <= j < i ==> LinkOk(h, records, j)
    {
      var record := records[i];
      if record.previousHash != expectedPrevious {
        assert !LinkOk(h, records, i);
        return false;
      }
      var calculatedHash := ComputeEventHash(h, record.previousHash, record.payload);
      if calculatedHash != record.currentHash {
        assert !LinkOk(h, records, i);
        return false;
      }
      expectedPrevious := record.currentHash;
    }
    return true;
  }

  lemma {:induction false} LinkedPrefix(h: Hash, records: seq<Record>, n: nat)
    requires Linked(h, records) && n <= |records|
    ensures Linked(h, records[..n])
  {
    forall i | 0 <= i < n ensures LinkOk(h, records[..n], i) {
      assert LinkOk(h, records, i);
      assert records[..n][..i] == records[..i];
    }
  }

  lemma {:induction false} LinkedAppend(h: Hash, records: seq<Record>, p: Payload)
    requires Linked(h, records)
    ensures Linked(h, records + [Record(Head(records), ComputeEventHash(h, Head(records), p), p)])
  {
    var all := records + [Record(Head(records), ComputeEventHash(h, Head(records), p), p)];
    forall i | 0 <= i < |all| ensures LinkOk(h, all, i) {
      assert all[..i] == records[..i];
      if i < |records| {
        assert LinkOk(h, records, i);
      } else {
        assert records[..i] == records;
      }
    }
  }

  /** The chain that recording `payloads` one after the other leaves behind. */
  function Recorded(h: Hash, payloads: seq<Payload>): (r: seq<Record>)
    ensures |r| == |payloads|
  {
    if payloads == [] then []
    else
      var n := |payloads| - 1;
      var before := Recorded(h, payloads[..n]);
      before + [Record(Head(before), ComputeEventHash(h, Head(before), payloads[n]), payloads[n])]
  }

  function Payloads(records: seq<Record>): seq<Payload> {
    seq(|records|, i requires 0 <= i < |records| => records[i].payload)
  }

  /** Verification accepts exactly the chains that recording produces. */
  lemma {:induction false} AcceptedAreRecorded(h: Hash, records: seq<Record>)
    ensures Linked(h, records) <==> records == Recorded(h, Payloads(records))
    decreases |records|
  {
    hide ComputeEventHash;
    if records != [] {
      var n := |records| - 1;
      AcceptedAreRecorded(h, records[..n]);
      assert Payloads(records)[..n] == Payloads(records[..n]);
      assert records == records[..n] + [records[n]];
      if Linked(h, records) {
        LinkedPrefix(h, records, n);
        assert LinkOk(h, records, n);
      }
      if records == Recorded(h, Payloads(records)) {
        assert records[..n] == Recorded(h, Payloads(records[..n]));
        LinkedAppend(h, records[..n], records[n].payload);
      }
    }
  }

  /** A digest is never the genesis text, which is not the hash of anything. */
  ghost predicate Digest(h: Hash) {
    Injective(h) && forall x :: h(x) != GENESIS
  }

  predicate AllValid(records: seq<Record>) {
    forall i :: 0 <= i < |records| ==> ValidPayload(records[i].payload)
  }

  /** Equal record by record, up to the defaults of missing fields. */
  predicate SameStory(a: seq<Record>, b: seq<Record>) {
    |a| == |b| && forall i :: 0 <= i < |a| ==> Defaulted(a[i].payload) == Defaulted(b[i].payload)
  }

  /** The head of an accepted chain determines its length and every record in it, and nothing less does. */
  lemma {:induction false} HeadDeterminesChain(h: Hash, a: seq<Record>, b: seq<Record>)
    requires Digest(h) && Linked(h, a) && Linked(h, b) && AllValid(a) && AllValid(b)
    ensures Head(a) == Head(b) <==> SameStory(a, b)
    decreases |a| + |b|
  {
    if a == [] || b == [] {
      if b != [] { assert LinkOk(h, b, |b| - 1); }
      if a != [] { assert LinkOk(h, a, |a| - 1); }
    } else {
      var m, n := |a| - 1, |b| - 1;
      assert LinkOk(h, a, m) && LinkOk(h, b, n);
      LinkedPrefix(h, a, m);
      LinkedPrefix(h, b, n);
      HeadDeterminesChain(h, a[..m], b[..n]);
      EventHashBinds(h, a[m].previousHash, a[m].payload, b[n].previousHash, b[n].payload);
      if SameStory(a, b) {
        forall i | 0 <= i < m ensures Defaulted(a[..m][i].payload) == Defaulted(b[..n][i].payload) {
          assert Defaulted(a[i].payload) == Defaulted(b[i].payload);
        }
      } else if Head(a) == Head(b) {
        forall i | 0 <= i < |a| ensures Defaulted(a[i].payload) == Defaulted(b[i].payload) {
          if i < m { assert a[i] == a[..m][i] && b[i] == b[..n][i]; }
        }
      }
    }
  }

  /** No hash occurs twice in an accepted chain, nor does the genesis text. */
  lemma {:induction false} HashesDistinct(h: Hash, a: seq<Record>, i: nat, j: nat)
    requires Digest(h) && Linked(h, a) && AllValid(a) && i <= j <= |a|
    ensures Head(a[..i]) == Head(a[..j]) <==> i == j
  {
    LinkedPrefix(h, a, i);
    LinkedPrefix(h, a, j);
    HeadDeterminesChain(h, a[..i], a[..j]);
  }

  /** An edited payload passes verification exactly when the hash could not see the edit. */
  lemma {:induction false} EditDetected(h: Hash, a: seq<Record>, k: nat, p: Payload)
    requires Digest(h) && Linked(h, a) && AllValid(a) && k < |a| && ValidPayload(p)
    ensures Linked(h, a[k := a[k].(payload := p)]) <==> Defaulted(p) == Defaulted(a[k].payload)
  {
    var b := a[k := a[k].(payload := p)];
    assert LinkOk(h, a, k);
    EventHashBinds(h, a[k].previousHash, p, a[k].previousHash, a[k].payload);
    forall i | 0 <= i < |a| ensures i != k ==> LinkOk(h, b, i) {
      assert LinkOk(h, a, i);
      if i > 0 { assert b[..i][i - 1].currentHash == a[..i][i - 1].currentHash; }
    }
    assert b[..k] == a[..k];
    assert LinkOk(h, b, k) <==> Defaulted(p) == Defaulted(a[k].payload);
  }

  // ---------------------------------------------------------------- the service

  class ComplianceService {
    var auditChain: seq<Record>
    var lastHash: string

    ghost predicate Valid(h: Hash)
      reads this
    {
      Linked(h, auditChain) && lastHash == Head(auditChain)
    }

    constructor (h: Hash)
      ensures Valid(h) && auditChain == []
    {
      auditChain := [];
      lastHash := GENESIS;
    }

    /** The payload carries its own timestamp. */
    method RecordAuditEvent(h: Hash, payload: Payload) returns (previousHash: string, currentHash: string)
      requires Valid(h)
      modifies this
      ensures Valid(h)
      ensures previousHash == old(lastHash) && currentHash == lastHash == ComputeEventHash(h, previousHash, payload)
      ensures auditChain == Recorded(h, Payloads(old(auditChain)) + [payload])
    {
      AcceptedAreRecorded(h, auditChain);
      assert (Payloads(auditChain) + [payload])[..|auditChain|] == Payloads(auditChain);
      LinkedAppend(h, auditChain, payload);
      previousHash := lastHash;
      currentHash := ComputeEventHash(h, lastHash, payload);
      auditChain := auditChain + [Record(lastHash, currentHash, payload)];
      lastHash := currentHash;
    }

    method VerifyAuditIntegrity(h: Hash) returns (valid: bool)
      ensures valid <==> Linked(h, auditChain)
      ensures Valid(h) ==> valid
    {
      valid := VerifyChain(h, auditChain);
    }
  }
}
