/**
  The mutation gateway (services/execution-service/src/k8s-client.ts: rollbackDeployment,
  verifyRollback, scaleDeployment, checkHpaOwnership) against the API server.

  A call reads, decides, patches and, for a rollback, reads again; other actors may write between
  any two of these steps. `Environment` holds those writes, the answers of the two listings, the
  clock, and what becomes of each request on the network.
 */
module K8sGateway {
  import opened Wrappers
  import opened Json
  import opened Text
  import opened ApiServer
  import opened PodTemplate

  datatype Code =
    | TARGET_NOT_FOUND | STALE_PROPOSAL | STALE_TARGET | APPROVAL_EXPIRED | VERIFICATION_FAILED
    | EXECUTION_FAILED | PARAMETER_REJECTED | DEPENDENCY_UNAVAILABLE

  /** An absent text is empty. */
  datatype Snapshot =
    Snapshot(deploymentUid: string, resourceVersion: string, expiresAt: Option<int>, targetTemplateHash: string)

  /** Binds nothing. */
  const NO_SNAPSHOT := Snapshot("", "", None, "")

  datatype Options = Options(expectedResourceVersion: string, snapshot: Option<Snapshot>)

  /** A failed request, with its reading as a conflict: status 409 or 422, or a message that says so. */
  datatype Failure = Failure(conflict: bool)

  function FailureCode(f: Failure): Code { if f.conflict then STALE_TARGET else EXECUTION_FAILED }

  /** What becomes of the patch request. A rejected or lost request stores nothing; a lost answer is no conflict. */
  datatype Fate = Delivered | RequestFailed(failure: Failure) | AnswerLost

  // ---------------------------------------------------------------- reading objects

  function TextAt(v: Value, path: Path): string {
    match At(v, path)
    case Some(Str(s)) => s
    case _ => ""
  }

  const UID: Path := ["metadata", "uid"]
  const REVISION: Path := ["metadata", "annotations", "deployment.kubernetes.io/revision"]
  const TEMPLATE: Path := ["spec", "template"]
  const REPLICAS: Path := ["spec", "replicas"]
  const CHANGE_CAUSE: Path := ["metadata", "annotations", "kubernetes.io/change-cause"]

  function RevisionOf(v: Value, default: string): Option<int> {
    var text := TextAt(v, REVISION);
    ParseInt(if text == "" then default else text)
  }

  predicate OwnedBy(ref: Value, uid: string) {
    At(ref, ["uid"]) == Some(Str(uid))
    && At(ref, ["kind"]) == Some(Str("Deployment"))
    && At(ref, ["controller"]) == Some(Bool(true))
  }

  /** Some owner reference names the Deployment's UID as the controller. */
  predicate Controlled(rs: Value, uid: string) {
    match At(rs, ["metadata", "ownerReferences"])
    case Some(Arr(refs)) => exists i :: 0 <= i < |refs| && OwnedBy(refs[i], uid)
    case _ => false
  }

  // ---------------------------------------------------------------- choosing the revision

  datatype Candidate = Candidate(rs: Value, rev: int)

  /** The controlled ReplicaSets that carry a revision number, in the order listed. */
  function Candidates(list: seq<Value>, uid: string): seq<Candidate> {
    if list == [] then []
    else
      (if Controlled(list[0], uid) && RevisionOf(list[0], "0").Some?
       then [Candidate(list[0], RevisionOf(list[0], "0").value)] else [])
      + Candidates(list[1..], uid)
  }

  function Insert(c: Candidate, sorted: seq<Candidate>): seq<Candidate> {
    if sorted == [] || c.rev >= sorted[0].rev then [c] + sorted else [sorted[0]] + Insert(c, sorted[1..])
  }

  /** `sort((a, b) => b.rev - a.rev)`, which is stable. */
  function SortDescending(cs: seq<Candidate>): seq<Candidate> {
    if cs == [] then [] else Insert(cs[0], SortDescending(cs[1..]))
  }

  function Matching(cs: seq<Candidate>, rev: int): seq<Candidate> {
    if cs == [] then [] else (if cs[0].rev == rev then [cs[0]] else []) + Matching(cs[1..], rev)
  }

  function FindBelow(cs: seq<Candidate>, rev: int): Option<Candidate> {
    if cs == [] then None else if cs[0].rev < rev then Some(cs[0]) else FindBelow(cs[1..], rev)
  }

  function Choose(cs: seq<Candidate>, target: Option<int>, current: Option<int>): Option<Candidate> {
    var sorted := SortDescending(cs);
    match target
    case Some(rev) => var m := Matching(sorted, rev); if |m| == 1 then Some(m[0]) else None
    case None => if current.None? then None else FindBelow(sorted, current.value)
  }

  // ---------------------------------------------------------------- the rollback, up to the patch

  /** The checks on the Deployment itself, before the ReplicaSets are listed. */
  function Preflight(d: Value, o: Options, clock: int): Option<Code> {
    var uid, version := TextAt(d, UID), TextAt(d, VERSION);
    var snap := if o.snapshot.Some? then o.snapshot.value else NO_SNAPSHOT;
    if uid == "" then Some(TARGET_NOT_FOUND)
    else if snap.deploymentUid != "" && snap.deploymentUid != uid then Some(STALE_PROPOSAL)
    else if snap.resourceVersion != "" && snap.resourceVersion != version then Some(STALE_TARGET)
    else if snap.expiresAt.Some? && clock >= snap.expiresAt.value then Some(APPROVAL_EXPIRED)
    else if o.expectedResourceVersion != "" && o.expectedResourceVersion != version then Some(STALE_TARGET)
    else None
  }

  function VersionTest(d: Value, o: Options): seq<Op> {
    var version := if o.expectedResourceVersion != "" then o.expectedResourceVersion else TextAt(d, VERSION);
    if version != "" then [Test(VERSION, version)] else []
  }

  function ChangeCause(revision: int, hash: string): string {
    "Rollback to revision " + IntText(revision) + " (template hash: " + (if |hash| <= 12 then hash else hash[..12])
    + ") via AI SRE Commander"
  }

  function RollbackPatch(d: Value, o: Options, template: Value, revision: int, hash: string, time: string): seq<Op>
    requires Typed(template)
  {
    VersionTest(d, o)
    + [Replace(TEMPLATE, Stamp(template, time, IntText(revision), hash)),
       Add(CHANGE_CAUSE, Str(ChangeCause(revision, hash)))]
  }

  datatype Plan = Refuse(code: Code) | Send(patch: seq<Op>, chosen: Candidate, expectedHash: string)

  predicate HasContainers(template: Value) {
    match At(template, ["spec", "containers"])
    case Some(Arr(items)) => items != []
    case _ => false
  }

  function PlanRollback(h: Hash, d: Value, list: seq<Value>, target: Option<int>, o: Options, time: string): Plan {
    var choice := Choose(Candidates(list, TextAt(d, UID)), target, RevisionOf(d, "1"));
    if choice.None? then Refuse(TARGET_NOT_FOUND)
    else
      var template := At(choice.value.rs, TEMPLATE);
      if template.None? || !HasContainers(template.value) then Refuse(TARGET_NOT_FOUND)
      else
        var hash := TemplateHash(h, template.value);
        if o.snapshot.Some? && o.snapshot.value.targetTemplateHash != "" && o.snapshot.value.targetTemplateHash != hash
        then Refuse(STALE_PROPOSAL)
        else if !Typed(template.value) then Refuse(EXECUTION_FAILED)   // a shape that no ReplicaSet has
        else Send(RollbackPatch(d, o, template.value, choice.value.rev, hash, time), choice.value, hash)
  }

  // ---------------------------------------------------------------- the whole rollback

  datatype Environment = Environment(
    read: Option<Failure>,
    clock: int,
    list: Result<seq<Value>, Failure>,
    beforePatch: seq<Option<Value>>,
    fate: Fate,
    time: string,
    beforeVerify: seq<Option<Value>>,
    reread: Option<Failure>)

  datatype RollbackResult = RollbackResult(success: bool, code: Option<Code>, revision: int)

  function Refused(code: Code): RollbackResult { RollbackResult(false, Some(code), -1) }

  /** A 422 reads as a conflict, a 404 does not. */
  function AnswerCode(answer: PatchAnswer): Option<Code> {
    match answer
    case Stored => None
    case Missing => Some(EXECUTION_FAILED)
    case Unprocessable => Some(STALE_TARGET)
  }

  /** The patch request: what the caller learns, and what is stored. */
  function Submit(s: History, patch: seq<Op>, fate: Fate): (Option<Code>, History) {
    match fate
    case RequestFailed(f) => (Some(FailureCode(f)), s)
    case AnswerLost => (Some(EXECUTION_FAILED), Patched(s, patch))
    case Delivered => (AnswerCode(AnswerTo(s, patch)), Patched(s, patch))
  }

  predicate Verified(h: Hash, s: History, expectedHash: string) {
    Live(s).Some? && At(Live(s).value, TEMPLATE).Some?
    && TemplateHash(h, At(Live(s).value, TEMPLATE).value) == expectedHash
  }

  function Rollback(h: Hash, s: History, target: Option<int>, o: Options, env: Environment): (RollbackResult, History) {
    if env.read.Some? then (Refused(FailureCode(env.read.value)), s)
    else if Live(s).None? then (Refused(EXECUTION_FAILED), s)
    else
      var d := Live(s).value;
      var preflight := Preflight(d, o, env.clock);
      if preflight.Some? then (Refused(preflight.value), s)
      else if env.list.Err? then (Refused(FailureCode(env.list.error)), s)
      else
        match PlanRollback(h, d, env.list.value, target, o, env.time)
        case Refuse(code) => (Refused(code), s)
        case Send(patch, chosen, expectedHash) =>
          var (failed, s2) := Submit(Writes(s, env.beforePatch), patch, env.fate);
          if failed.Some? then (Refused(failed.value), s2)
          else
            var s3 := Writes(s2, env.beforeVerify);
            var verified := env.reread.None? && Verified(h, s3, expectedHash);
            (RollbackResult(verified, if verified then None else Some(VERIFICATION_FAILED), chosen.rev), s3)
  }

  // ---------------------------------------------------------------- scaling

  /** A requested replica count. */
  datatype Count = Integer(n: int) | NotAnInteger

  datatype Hpa = Hpa(name: string, targetKind: string, targetName: string)

  datatype HpaAnswer = Items(items: seq<Hpa>) | Malformed | HpaError(statusCode: int)

  datatype HpaStatus = FOUND | NOT_FOUND | UNAVAILABLE

  predicate Manages(hpa: Hpa, name: string) { hpa.targetKind == "Deployment" && hpa.targetName == name }

  function CheckHpaOwnership(answer: HpaAnswer, name: string): HpaStatus {
    match answer
    case Items(items) => if exists i :: 0 <= i < |items| && Manages(items[i], name) then FOUND else NOT_FOUND
    case Malformed => UNAVAILABLE
    case HpaError(statusCode) => if statusCode == 404 then NOT_FOUND else UNAVAILABLE
  }

  /** `spec.replicas ?? 1` */
  function ReplicasOf(d: Value): int {
    match At(d, REPLICAS)
    case Some(Num(t)) => if IntegerOf(t).Some? then IntegerOf(t).value else 1
    case _ => 1
  }

  function Distance(a: int, b: int): nat { if a < b then b - a else a - b }

  datatype ScalePlan = RefuseScale(code: Code) | SendScale(patch: seq<Op>)

  function ScalePatch(d: Value, o: Options, n: int): seq<Op> {
    VersionTest(d, o) + [Replace(REPLICAS, Num(IntText(n)))]
  }

  predicate CountAllowed(count: Count) { count.Integer? && 1 <= count.n <= 20 }

  /** The decision after the Deployment is read; the listing of HPAs comes last. */
  function PlanScale(d: Value, name: string, count: Count, o: Options, answer: HpaAnswer): ScalePlan {
    if !CountAllowed(count) then RefuseScale(PARAMETER_REJECTED)
    else if o.expectedResourceVersion != "" && o.expectedResourceVersion != TextAt(d, VERSION)
    then RefuseScale(STALE_TARGET)
    else if Distance(count.n, ReplicasOf(d)) > 5 then RefuseScale(PARAMETER_REJECTED)
    else match CheckHpaOwnership(answer, name)
      case UNAVAILABLE => RefuseScale(DEPENDENCY_UNAVAILABLE)
      case FOUND => RefuseScale(PARAMETER_REJECTED)
      case NOT_FOUND => SendScale(ScalePatch(d, o, count.n))
  }

  /** The answer (`None` is success) and the history. */
  function Scale(s: History, name: string, count: Count, o: Options, answer: HpaAnswer,
                 read: Option<Failure>, beforePatch: seq<Option<Value>>, fate: Fate): (Option<Code>, History) {
    if !CountAllowed(count) then (Some(PARAMETER_REJECTED), s)
    else if read.Some? then (Some(FailureCode(read.value)), s)
    else if Live(s).None? then (Some(EXECUTION_FAILED), s)
    else
      match PlanScale(Live(s).value, name, count, o, answer)
      case RefuseScale(code) => (Some(code), s)
      case SendScale(patch) => Submit(Writes(s, beforePatch), patch, fate)
  }

  // ---------------------------------------------------------------- the gateway

  class Gateway {
    const server: Server
    const name: string

    constructor (server: Server, name: string)
      ensures this.server == server && this.name == name
    {
      this.server := server;
      this.name := name;
    }

    /** patchNamespacedDeployment; `None` is success. */
    method SubmitPatch(patch: seq<Op>, fate: Fate) returns (failed: Option<Code>)
      modifies server
      ensures (failed, server.history) == Submit(old(server.history), patch, fate)
    {
      match fate {
        case RequestFailed(f) =>
          return Some(FailureCode(f));
        case AnswerLost =>
          var _ := server.Patch(patch);
          return Some(EXECUTION_FAILED);
        case Delivered =>
          var answer := server.Patch(patch);
          return AnswerCode(answer);
      }
    }

    method ChooseTarget(list: seq<Value>, uid: string, target: Option<int>, current: Option<int>)
      returns (choice: Option<Candidate>)
      ensures choice == Choose(Candidates(list, uid), target, current)
    {
      var sorted := SortDescending(Candidates(list, uid));
      if target.Some? {
        var matches := Matching(sorted, target.value);
        if |matches| != 1 {
          return None;
        }
        return Some(matches[0]);
      }
      if current.None? {
        return None;
      }
      return FindBelow(sorted, current.value);
    }

    /** Assembles the patch of a rollback by pushing its operations, on a stamped clone of the template. */
    method BuildRollback(h: Hash, d: Value, o: Options, choice: Candidate, time: string) returns (plan: Plan)
      requires At(choice.rs, TEMPLATE).Some? && HasContainers(At(choice.rs, TEMPLATE).value)
      ensures var template := At(choice.rs, TEMPLATE).value;
              var hash := TemplateHash(h, template);
              plan == if o.snapshot.Some? && o.snapshot.value.targetTemplateHash != ""
                         && o.snapshot.value.targetTemplateHash != hash
                      then Refuse(STALE_PROPOSAL)
                      else if !Typed(template) then Refuse(EXECUTION_FAILED)
                      else Send(RollbackPatch(d, o, template, choice.rev, hash, time), choice, hash)
    {
      hide TemplateHash, ChangeCause, IntText, TextAt, Typed, Assign, WithAnnotations, Annotations, At;
      var template := At(choice.rs, TEMPLATE).value;
      var expectedHash := TemplateHash(h, template);
      if o.snapshot.Some? && o.snapshot.value.targetTemplateHash != ""
         && o.snapshot.value.targetTemplateHash != expectedHash {
        return Refuse(STALE_PROPOSAL);
      }
      if !Typed(template) {
        return Refuse(EXECUTION_FAILED);
      }
      var annotations := Annotations(template);
      annotations := Assign(annotations, "ai-sre-commander/rollback-time", Str(time));
      annotations := Assign(annotations, "ai-sre-commander/target-revision", Str(IntText(choice.rev)));
      annotations := Assign(annotations, "ai-sre-commander/template-hash", Str(expectedHash));
      var patch: seq<Op> := [];
      var versionToTest := if o.expectedResourceVersion != "" then o.expectedResourceVersion else TextAt(d, VERSION);
      if versionToTest != "" {
        patch := patch + [Test(VERSION, versionToTest)];
      }
      patch := patch + [Replace(TEMPLATE, WithAnnotations(template, annotations))];
      patch := patch + [Add(CHANGE_CAUSE, Str(ChangeCause(choice.rev, expectedHash)))];
      assert patch == RollbackPatch(d, o, template, choice.rev, expectedHash, time);
      return Send(patch, choice, expectedHash);
    }

    method VerifyRollback(h: Hash, expectedHash: string, reread: Option<Failure>) returns (verified: bool)
      ensures verified <==> reread.None? && Verified(h, server.history, expectedHash)
    {
      if reread.Some? || Live(server.history).None? {
        return false;
      }
      var template := At(Live(server.history).value, TEMPLATE);
      if template.None? {
        return false;
      }
      return TemplateHash(h, template.value) == expectedHash;
    }

    method RollbackDeployment(h: Hash, target: Option<int>, o: Options, env: Environment) returns (r: RollbackResult)
      modifies server
      ensures (r, server.history) == Rollback(h, old(server.history), target, o, env)
    {
      hide Writes, Verified, Submit, Choose, HasContainers, RollbackPatch;
      if env.read.Some? {
        return Refused(FailureCode(env.read.value));
      }
      if Live(server.history).None? {
        return Refused(EXECUTION_FAILED);
      }
      var d := Live(server.history).value;
      var preflight := Preflight(d, o, env.clock);
      if preflight.Some? {
        return Refused(preflight.value);
      }
      if env.list.Err? {
        return Refused(FailureCode(env.list.error));
      }
      var choice := ChooseTarget(env.list.value, TextAt(d, UID), target, RevisionOf(d, "1"));
      if choice.None? {
        return Refused(TARGET_NOT_FOUND);
      }
      var template := At(choice.value.rs, TEMPLATE);
      if template.None? || !HasContainers(template.value) {
        return Refused(TARGET_NOT_FOUND);
      }
      var plan := BuildRollback(h, d, o, choice.value, env.time);
      if plan.Refuse? {
        return Refused(plan.code);
      }
      server.Interfere(env.beforePatch);
      var failed := SubmitPatch(plan.patch, env.fate);
      if failed.Some? {
        return Refused(failed.value);
      }
      server.Interfere(env.beforeVerify);
      var verified := VerifyRollback(h, plan.expectedHash, env.reread);
      return RollbackResult(verified, if verified then None else Some(VERIFICATION_FAILED), plan.chosen.rev);
    }

    method ScaleDeployment(count: Count, o: Options, answer: HpaAnswer, read: Option<Failure>,
                           beforePatch: seq<Option<Value>>, fate: Fate)
      returns (code: Option<Code>)
      modifies server
      ensures (code, server.history) == Scale(old(server.history), name, count, o, answer, read, beforePatch, fate)
    {
      hide Writes, Submit, CheckHpaOwnership;
      if !count.Integer? {
        return Some(PARAMETER_REJECTED);
      }
      if count.n < 1 || count.n > 20 {
        return Some(PARAMETER_REJECTED);
      }
      if read.Some? {
        return Some(FailureCode(read.value));
      }
      if Live(server.history).None? {
        return Some(EXECUTION_FAILED);
      }
      var d := Live(server.history).value;
      if o.expectedResourceVersion != "" && o.expectedResourceVersion != TextAt(d, VERSION) {
        return Some(STALE_TARGET);
      }
      if Distance(count.n, ReplicasOf(d)) > 5 {
        return Some(PARAMETER_REJECTED);
      }
      match CheckHpaOwnership(answer, name) {
        case UNAVAILABLE => return Some(DEPENDENCY_UNAVAILABLE);
        case FOUND => return Some(PARAMETER_REJECTED);
        case NOT_FOUND =>
      }
      var patch: seq<Op> := [];
      var versionToTest := if o.expectedResourceVersion != "" then o.expectedResourceVersion else TextAt(d, VERSION);
      if versionToTest != "" {
        patch := patch + [Test(VERSION, versionToTest)];
      }
      patch := patch + [Replace(REPLICAS, Num(IntText(count.n)))];
      assert patch == ScalePatch(d, o, count.n);
      server.Interfere(beforePatch);
      code := SubmitPatch(patch, fate);
    }
  }
}
