/** Concrete calls of the gateway in which an answer says less than its name. */
module GatewayExamples {
  import opened Wrappers
  import opened Json
  import opened Text
  import opened ApiServer
  import opened PodTemplate
  import opened K8sGateway
  import opened GatewayOutcome

  const REVISION_KEY := "deployment.kubernetes.io/revision"

  function Revised(revision: string): Field { Field("annotations", Obj([Field(REVISION_KEY, Str(revision))])) }

  /** A Deployment at revision 2. */
  const DEPLOYMENT := Obj([
    Field("metadata", Obj([Field("uid", Str("u")), Revised("2")])),
    Field("spec", Obj([Field("template", Obj([]))]))])

  function OwnerRef(uid: string): Value {
    Obj([Field("uid", Str(uid)), Field("kind", Str("Deployment")), Field("controller", Bool(true))])
  }

  const POD := Field("spec", Obj([Field("containers", Arr([Obj([])]))]))

  /** A template without metadata, and one with an annotations object. */
  const BARE := Obj([POD])
  const ANNOTATED := Obj([Field("metadata", Obj([Field("annotations", Obj([]))])), POD])

  /** A ReplicaSet of revision 1. */
  function OwnedReplicaSet(uid: string, template: Value): Value {
    Obj([
      Field("metadata", Obj([Field("ownerReferences", Arr([OwnerRef(uid)])), Revised("1")])),
      Field("spec", Obj([Field("template", template)]))])
  }

  function ReplicaSetOf(template: Value): Value { OwnedReplicaSet("u", template) }

  predicate Target(template: Value) { Valid(template) && Typed(template) && HasContainers(template) }

  const OPTIONS := Options("", None)

  function Env(template: Value, fate: Fate): Environment {
    Environment(None, 0, Ok([ReplicaSetOf(template)]), [], fate, "now", [], None)
  }

  const STORED: History := [Some(Stamped(DEPLOYMENT, 0))]

  lemma AtObj(fields: seq<Field>, path: Path)
    requires path != []
    ensures At(Obj(fields), path) ==
            if Lookup(fields, path[0]).None? then None else At(Lookup(fields, path[0]).value, path[1..])
  {
  }

  lemma At1(fields: seq<Field>, a: string)
    ensures At(Obj(fields), [a]) == Lookup(fields, a)
  {
    AtObj(fields, [a]);
    assert [a][1..] == [];
  }

  lemma At2(fields: seq<Field>, a: string, inner: seq<Field>, b: string)
    requires Lookup(fields, a) == Some(Obj(inner))
    ensures At(Obj(fields), [a, b]) == Lookup(inner, b)
  {
    AtObj(fields, [a, b]);
    assert [a, b][1..] == [b];
    At1(inner, b);
  }

  lemma At3(fields: seq<Field>, a: string, inner: seq<Field>, b: string, last: seq<Field>, c: string)
    requires Lookup(fields, a) == Some(Obj(inner)) && Lookup(inner, b) == Some(Obj(last))
    ensures At(Obj(fields), [a, b, c]) == Lookup(last, c)
  {
    AtObj(fields, [a, b, c]);
    assert [a, b, c][1..] == [b, c];
    At2(inner, b, last, c);
  }

  lemma Lookup2(f: Field, g: Field)
    requires f.key != g.key
    ensures Lookup([f, g], f.key) == Some(f.val) && Lookup([f, g], g.key) == Some(g.val)
  {
    assert [f, g][1..] == [g];
  }

  lemma KeysDiffer()
    ensures "metadata" != "spec" && "uid" != "annotations" && "ownerReferences" != "annotations"
    ensures "uid" != "kind" && "uid" != "controller" && "kind" != "controller"
  {
    assert "metadata"[0] != "spec"[0] && "uid"[0] != "annotations"[0] && "ownerReferences"[0] != "annotations"[0];
    assert "uid"[0] != "kind"[0] && "uid"[0] != "controller"[0] && "kind"[0] != "controller"[0];
  }

  lemma {:induction false} DeploymentReads()
    ensures TextAt(DEPLOYMENT, UID) == "u" && TextAt(DEPLOYMENT, REVISION) == "2"
    ensures At(DEPLOYMENT, TEMPLATE) == Some(Obj([])) && HasObject(DEPLOYMENT, ANNOTATIONS)
    ensures Storable(DEPLOYMENT) && Valid(DEPLOYMENT)
  {
    KeysDiffer();
    var fields := DEPLOYMENT.fields;
    var meta, spec := fields[0].val.fields, fields[1].val.fields;
    Lookup2(fields[0], fields[1]);
    Lookup2(meta[0], meta[1]);
    At2(fields, "metadata", meta, "uid");
    At2(fields, "metadata", meta, "annotations");
    At3(fields, "metadata", meta, "annotations", meta[1].val.fields, REVISION_KEY);
    At2(fields, "spec", spec, "template");
    ValidParts(DEPLOYMENT);
  }

  /** Two members with different names and valid values make a valid object. */
  lemma ValidPair(f: Field, g: Field)
    requires f.key != g.key && Valid(f.val) && Valid(g.val)
    ensures Valid(Obj([f, g]))
  {
  }

  lemma ValidSingle(f: Field)
    requires Valid(f.val)
    ensures Valid(Obj([f]))
  {
  }

  lemma ValidParts(v: Value)
    requires v == DEPLOYMENT
    ensures Valid(v)
  {
    KeysDiffer();
    ValidSingle(Field(REVISION_KEY, Str("2")));
    ValidPair(Field("uid", Str("u")), Revised("2"));
    ValidSingle(Field("template", Obj([])));
    ValidPair(DEPLOYMENT.fields[0], DEPLOYMENT.fields[1]);
  }

  lemma {:induction false} ReplicaSetReads(template: Value)
    requires Target(template)
    ensures var rs := ReplicaSetOf(template);
            Controlled(rs, "u") && TextAt(rs, REVISION) == "1" && At(rs, TEMPLATE) == Some(template) && Valid(rs)
  {
    KeysDiffer();
    var fields := ReplicaSetOf(template).fields;
    var meta, spec := fields[0].val.fields, fields[1].val.fields;
    Lookup2(fields[0], fields[1]);
    Lookup2(meta[0], meta[1]);
    At2(fields, "metadata", meta, "ownerReferences");
    At3(fields, "metadata", meta, "annotations", meta[1].val.fields, REVISION_KEY);
    At2(fields, "spec", spec, "template");
    OwnerReads("u");
    assert OwnedBy([OwnerRef("u")][0], "u");
    ReplicaSetValid(template);
  }

  lemma {:induction false} TargetsRead()
    ensures Target(BARE) && !HasAnnotations(BARE) && Target(ANNOTATED) && HasAnnotations(ANNOTATED)
  {
    KeysDiffer();
    assert BARE.fields[1..] == [] && Lookup(BARE.fields, "metadata").None?;
    At2(BARE.fields, "spec", POD.val.fields, "containers");
    Lookup2(ANNOTATED.fields[0], ANNOTATED.fields[1]);
    At2(ANNOTATED.fields, "spec", POD.val.fields, "containers");
    assert Valid(Arr([Obj([])]));
    ValidSingle(POD.val.fields[0]);
    ValidSingle(POD);
    ValidSingle(Field("annotations", Obj([])));
    ValidPair(ANNOTATED.fields[0], POD);
  }

  lemma OwnerReads(uid: string)
    ensures OwnedBy(OwnerRef(uid), uid) && At(OwnerRef(uid), ["uid"]) == Some(Str(uid))
  {
    KeysDiffer();
    var f := OwnerRef(uid).fields;
    assert f[1..] == [f[1], f[2]];
    Lookup2(f[1], f[2]);
    At1(f, "uid");
    At1(f, "kind");
    At1(f, "controller");
  }

  lemma ReplicaSetValid(template: Value)
    requires Valid(template)
    ensures Valid(ReplicaSetOf(template))
  {
    KeysDiffer();
    assert Valid(OwnerRef("u"));
    assert Valid(Arr([OwnerRef("u")]));
    ValidSingle(Field(REVISION_KEY, Str("1")));
    ValidPair(Field("ownerReferences", Arr([OwnerRef("u")])), Revised("1"));
    ValidSingle(Field("template", template));
    ValidPair(ReplicaSetOf(template).fields[0], ReplicaSetOf(template).fields[1]);
  }

  lemma Digits()
    ensures ParseInt("1") == Some(1) && ParseInt("2") == Some(2)
  {
    assert "1"[1..] == "" && "2"[1..] == "";
    assert LeadingDigits("1") == "1" && LeadingDigits("2") == "2";
    assert NaturalOf("1") == Some(1) && NaturalOf("2") == Some(2);
  }

  lemma ChosenHere(template: Value)
    requires Target(template)
    ensures Choose(Candidates([ReplicaSetOf(template)], "u"), None, Some(2))
            == Some(Candidate(ReplicaSetOf(template), 1))
  {
    hide Controlled, At, Valid, Typed, HasContainers;
    ReplicaSetReads(template);
    Digits();
    var c := Candidate(ReplicaSetOf(template), 1);
    assert [c.rs][1..] == [];
    assert Candidates([c.rs], "u") == [c];
    assert [c][1..] == [];
    assert SortDescending([c]) == [c];
  }

  /** The examples satisfy everything that the theorems ask for, and are sent. */
  lemma {:induction false} ExampleSends(h: Hash, template: Value, fate: Fate)
    requires Target(template)
    ensures Wellformed(STORED, Env(template, fate)) && Sends(h, STORED, None, OPTIONS, Env(template, fate))
    ensures At(Live(STORED).value, TEMPLATE).Some? && HasObject(Live(STORED).value, ANNOTATIONS)
    ensures var rs := ReplicaSetOf(template);
            PlanRollback(h, Live(STORED).value, [rs], None, OPTIONS, "now").chosen == Candidate(rs, 1)
            && At(rs, TEMPLATE) == Some(template)
  {
    hide At, Controlled, Choose, Candidates, TemplateHash, Typed, HasContainers, ParseInt, Valid;
    DeploymentReads();
    ReplicaSetReads(template);
    ChosenHere(template);
    Digits();
    ApartFromVersion();
    StampedElsewhere(DEPLOYMENT, 0, UID);
    StampedElsewhere(DEPLOYMENT, 0, REVISION);
    StampedElsewhere(DEPLOYMENT, 0, TEMPLATE);
    StampedElsewhere(DEPLOYMENT, 0, ANNOTATIONS);
  }

  lemma ApartFromVersion()
    ensures Apart(VERSION, UID) && Apart(VERSION, REVISION) && Apart(VERSION, TEMPLATE) && Apart(VERSION, ANNOTATIONS)
  {
    assert VERSION[1..][0] == "resourceVersion" && UID[1..][0] == "uid" && REVISION[1..][0] == "annotations";
    assert ANNOTATIONS[1..][0] == "annotations" && "resourceVersion"[0] != "uid"[0]
           && "resourceVersion"[0] != "annotations"[0];
    assert VERSION[0] == "metadata" && TEMPLATE[0] == "spec" && "metadata"[0] != "spec"[0];
  }

  /**
    Two undisturbed rollbacks that differ in an empty annotations object of the target: one succeeds, the other
    is stored all the same and reported as failing verification.
   */
  lemma {:induction false} BareTargetFailsVerification(h: Hash)
    requires Injective(h)
    ensures Rollback(h, STORED, None, OPTIONS, Env(ANNOTATED, Delivered)).0 == RollbackResult(true, None, 1)
    ensures var (r, after) := Rollback(h, STORED, None, OPTIONS, Env(BARE, Delivered));
            after != STORED && !r.success && r.code == Some(VERIFICATION_FAILED)
  {
    TargetsRead();
    ExampleOutcome(h, BARE);
    ExampleOutcome(h, ANNOTATED);
  }

  lemma {:induction false} ExampleOutcome(h: Hash, template: Value)
    requires Injective(h) && Target(template)
    ensures var (r, after) := Rollback(h, STORED, None, OPTIONS, Env(template, Delivered));
            after != STORED
            && r == if HasAnnotations(template) then RollbackResult(true, None, 1)
                    else RollbackResult(false, Some(VERIFICATION_FAILED), 1)
  {
    hide Wellformed, PlanRollback, Preflight, HasAnnotations, At, HasObject, Typed, Valid, HasContainers,
        Verified, ApplyPatch;
    ExampleSends(h, template, Delivered);
    QuietRollbackIff(h, STORED, None, OPTIONS, Env(template, Delivered));
  }

  /** The same rollback with its answer lost: EXECUTION_FAILED, and the template is stored. */
  lemma {:induction false} LostAnswerHidesWrite(h: Hash)
    ensures var (r, after) := Rollback(h, STORED, None, OPTIONS, Env(BARE, AnswerLost));
            r.code == Some(EXECUTION_FAILED) && after != STORED
  {
    hide Wellformed, PlanRollback, Preflight, At, HasObject, Typed, Valid, HasContainers;
    TargetsRead();
    ExampleSends(h, BARE, AnswerLost);
    assert Versioned(STORED);
    FailureWroteIff(h, STORED, None, OPTIONS, Env(BARE, AnswerLost));
  }

  /** And with the Deployment deleted in between: no conflict is reported. */
  lemma {:induction false} DeletedMeanwhile(h: Hash)
    ensures var env := Env(BARE, Delivered).(beforePatch := [None]);
            Rollback(h, STORED, None, OPTIONS, env) == (Refused(EXECUTION_FAILED), STORED + [None])
  {
    hide Wellformed, PlanRollback, Preflight, At, HasObject, Typed, Valid, HasContainers;
    var env := Env(BARE, Delivered).(beforePatch := [None]);
    TargetsRead();
    ExampleSends(h, BARE, Delivered);
    assert Writes(STORED, env.beforePatch) == STORED + [None] by {
      var ws: seq<Option<Value>> := [None];
      assert ws[1..] == [];
    }
    ConcurrentWriteRefused(h, STORED, None, OPTIONS, env);
  }

  /** The only ReplicaSet listed belongs to another Deployment of the namespace. */
  const FOREIGN := OwnedReplicaSet("v", ANNOTATED)

  lemma {:induction false} ForeignOwner()
    ensures HasOwner(FOREIGN, "v") && !HasOwner(FOREIGN, "u")
  {
    KeysDiffer();
    var fields := FOREIGN.fields;
    var meta := fields[0].val.fields;
    Lookup2(fields[0], fields[1]);
    Lookup2(meta[0], meta[1]);
    At2(fields, "metadata", meta, "ownerReferences");
    OwnerReads("v");
    assert OwnedBy([OwnerRef("v")][0], "v");
    ControlledIff(FOREIGN, "v");
    assert "u"[0] != "v"[0];
  }

  /** It is not rolled out: the call finds no target and writes nothing. */
  lemma {:induction false} ForeignReplicaSetIgnored(h: Hash)
    ensures HasOwner(FOREIGN, "v")
    ensures Rollback(h, STORED, None, OPTIONS, Env(ANNOTATED, Delivered).(list := Ok([FOREIGN])))
            == (Refused(TARGET_NOT_FOUND), STORED)
  {
    hide At, Controlled, HasOwner, Typed, HasContainers, ParseInt, Valid;
    ForeignOwner();
    DeploymentReads();
    ApartFromVersion();
    StampedElsewhere(DEPLOYMENT, 0, UID);
    ControlledIff(FOREIGN, "u");
    assert [FOREIGN][1..] == [] && Candidates([FOREIGN], "u") == [];
  }
}
