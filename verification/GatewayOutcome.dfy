/** What the answers of a single rollback or scaling call mean. */
module GatewayOutcome {
  import opened Wrappers
  import opened Json
  import opened Text
  import opened ApiServer
  import opened PodTemplate
  import opened K8sGateway

  // ---------------------------------------------------------------- the revision that is chosen

  /** Among its owner references is one to the Deployment with this UID, as the controller. */
  ghost predicate HasOwner(rs: Value, uid: string) {
    var owners := At(rs, ["metadata", "ownerReferences"]);
    owners.Some? && owners.value.Arr?
    && exists ref :: ref in owners.value.items
                     && At(ref, ["uid"]) == Some(Str(uid))
                     && At(ref, ["kind"]) == Some(Str("Deployment"))
                     && At(ref, ["controller"]) == Some(Bool(true))
  }

  lemma ControlledIff(rs: Value, uid: string)
    ensures Controlled(rs, uid) <==> HasOwner(rs, uid)
  {
    hide At;
    if HasOwner(rs, uid) {
      var refs := At(rs, ["metadata", "ownerReferences"]).value.items;
      var ref :| ref in refs && At(ref, ["uid"]) == Some(Str(uid)) && At(ref, ["kind"]) == Some(Str("Deployment"))
                 && At(ref, ["controller"]) == Some(Bool(true));
      var i :| 0 <= i < |refs| && refs[i] == ref;
      assert OwnedBy(refs[i], uid);
    }
  }

  /** The candidates are the listed ReplicaSets that the Deployment owns, with their revisions. */
  lemma {:induction false} CandidatesMean(list: seq<Value>, uid: string, c: Candidate)
    ensures c in Candidates(list, uid)
            <==> c.rs in list && HasOwner(c.rs, uid) && RevisionOf(c.rs, "0") == Some(c.rev)
  {
    hide HasOwner;
    if list != [] {
      ControlledIff(list[0], uid);
      CandidatesMean(list[1..], uid, c);
      assert c.rs in list <==> c.rs == list[0] || c.rs in list[1..];
    }
  }

  lemma {:induction false} InsertMembers(c: Candidate, sorted: seq<Candidate>)
    ensures multiset(Insert(c, sorted)) == multiset(sorted) + multiset{c}
  {
    if sorted == [] || c.rev >= sorted[0].rev {
    } else {
      InsertMembers(c, sorted[1..]);
      assert sorted == [sorted[0]] + sorted[1..];
    }
  }

  lemma {:induction false} SortMembers(cs: seq<Candidate>)
    ensures multiset(SortDescending(cs)) == multiset(cs)
  {
    if cs != [] {
      SortMembers(cs[1..]);
      InsertMembers(cs[0], SortDescending(cs[1..]));
      assert cs == [cs[0]] + cs[1..];
    }
  }

  predicate Descending(cs: seq<Candidate>) {
    forall i, j :: 0 <= i < j < |cs| ==> cs[i].rev >= cs[j].rev
  }

  lemma {:induction false} InsertDescends(c: Candidate, sorted: seq<Candidate>)
    requires Descending(sorted)
    ensures Descending(Insert(c, sorted))
  {
    if sorted != [] && c.rev < sorted[0].rev {
      InsertDescends(c, sorted[1..]);
      InsertMembers(c, sorted[1..]);
      var rest := Insert(c, sorted[1..]);
      forall j | 0 <= j < |rest| ensures sorted[0].rev >= rest[j].rev {
        assert rest[j] in multiset(rest);
        assert rest[j] == c || rest[j] in sorted[1..];
      }
    }
  }

  lemma {:induction false} SortDescends(cs: seq<Candidate>)
    ensures Descending(SortDescending(cs))
  {
    if cs != [] {
      SortDescends(cs[1..]);
      InsertDescends(cs[0], SortDescending(cs[1..]));
    }
  }

  lemma {:induction false} MatchingInsert(c: Candidate, sorted: seq<Candidate>, rev: int)
    ensures Matching(Insert(c, sorted), rev) == Matching([c] + sorted, rev)
  {
    assert ([c] + sorted)[1..] == sorted;
    if sorted != [] && c.rev < sorted[0].rev {
      MatchingInsert(c, sorted[1..], rev);
      assert ([c] + sorted[1..])[1..] == sorted[1..];
      assert Insert(c, sorted)[1..] == Insert(c, sorted[1..]);
    }
  }

  /** The sort is stable, so the matches are those of the list itself. */
  lemma {:induction false} MatchingSort(cs: seq<Candidate>, rev: int)
    ensures Matching(SortDescending(cs), rev) == Matching(cs, rev)
  {
    if cs != [] {
      var rest := SortDescending(cs[1..]);
      MatchingSort(cs[1..], rev);
      MatchingInsert(cs[0], rest, rev);
      assert ([cs[0]] + rest)[1..] == rest;
    }
  }

  predicate OnlyAt(cs: seq<Candidate>, rev: int, i: int) {
    0 <= i < |cs| && cs[i].rev == rev && forall j :: 0 <= j < |cs| && j != i ==> cs[j].rev != rev
  }

  lemma {:induction false} MatchingNone(cs: seq<Candidate>, rev: int)
    ensures Matching(cs, rev) == [] <==> forall j :: 0 <= j < |cs| ==> cs[j].rev != rev
  {
    if cs != [] {
      MatchingNone(cs[1..], rev);
      assert forall j :: 0 < j < |cs| ==> cs[j] == cs[1..][j - 1];
      assert cs[0].rev == rev ==> Matching(cs, rev) != [];
      if forall j :: 0 <= j < |cs[1..]| ==> cs[1..][j].rev != rev {
        assert forall j :: 0 <= j < |cs| ==> j == 0 || cs[j].rev != rev;
      }
    }
  }

  lemma {:induction false} MatchingOne(cs: seq<Candidate>, rev: int, i: int)
    requires OnlyAt(cs, rev, i)
    ensures Matching(cs, rev) == [cs[i]]
  {
    if i == 0 {
      MatchingNone(cs[1..], rev);
    } else {
      assert cs[0].rev != rev && cs[1..][i - 1] == cs[i];
      MatchingOne(cs[1..], rev, i - 1);
    }
  }

  lemma {:induction false} MatchingUnique(cs: seq<Candidate>, rev: int) returns (i: int)
    requires |Matching(cs, rev)| == 1
    ensures OnlyAt(cs, rev, i) && Matching(cs, rev) == [cs[i]]
  {
    if cs[0].rev == rev {
      MatchingNone(cs[1..], rev);
      i := 0;
      assert forall j :: 0 < j < |cs| ==> cs[j] == cs[1..][j - 1];
    } else {
      var k := MatchingUnique(cs[1..], rev);
      i := k + 1;
      forall j | 0 <= j < |cs| && j != i ensures cs[j].rev != rev {
        if j > 0 { assert cs[j] == cs[1..][j - 1]; }
      }
    }
  }

  lemma {:induction false} FindBelowMeans(cs: seq<Candidate>, rev: int)
    requires Descending(cs)
    ensures var r := FindBelow(cs, rev);
            if r.Some? then r.value in cs && r.value.rev < rev &&
               forall c :: c in cs && c.rev < rev ==> c.rev <= r.value.rev
            else forall c :: c in cs ==> c.rev >= rev
  {
    if cs != [] && cs[0].rev >= rev {
      FindBelowMeans(cs[1..], rev);
      assert cs == [cs[0]] + cs[1..];
    } else if cs != [] {
      forall c | c in cs ensures c.rev <= cs[0].rev {
        var i :| 0 <= i < |cs| && cs[i] == c;
      }
    }
  }

  /** A requested revision is served exactly when it is carried once. */
  lemma {:induction false} ExactRevision(cs: seq<Candidate>, rev: int, current: Option<int>, c: Candidate)
    ensures Choose(cs, Some(rev), current) == Some(c) <==> exists i :: OnlyAt(cs, rev, i) && cs[i] == c
  {
    MatchingSort(cs, rev);
    if Choose(cs, Some(rev), current) == Some(c) {
      var i := MatchingUnique(cs, rev);
    }
    if i :| OnlyAt(cs, rev, i) && cs[i] == c {
      MatchingOne(cs, rev, i);
    }
  }

  /** Otherwise the choice is a greatest revision below the current one, if there is any below. */
  lemma {:induction false} PriorRevision(cs: seq<Candidate>, current: int)
    ensures var r := Choose(cs, None, Some(current));
            if r.Some? then r.value in cs && r.value.rev < current &&
               forall c :: c in cs && c.rev < current ==> c.rev <= r.value.rev
            else forall c :: c in cs ==> c.rev >= current
  {
    var sorted := SortDescending(cs);
    SortDescends(cs);
    SortMembers(cs);
    FindBelowMeans(sorted, current);
    assert forall c :: c in cs <==> c in multiset(cs);
    assert forall c :: c in sorted <==> c in multiset(sorted);
  }

  // ---------------------------------------------------------------- an accepted patch overwrites what was read

  lemma VersionStorable(v: Value)
    requires At(v, VERSION).Some?
    ensures Storable(v)
  {
    assert VERSION[1..] == ["resourceVersion"];
  }

  lemma LiveIsStamped(s: History)
    requires Versioned(s) && Live(s).Some?
    ensures |s| > 0 && At(Live(s).value, VERSION) == Some(Str(Decimal(|s| - 1)))
  {
    hide Decimal, At;
    assert s[|s| - 1].Some?;
  }

  lemma TextOf(v: Value, path: Path, text: string)
    requires At(v, path) == Some(Str(text))
    ensures TextAt(v, path) == text
  {
    hide At;
  }

  /** The version of a live object is the text of its position, and is never empty. */
  lemma LiveVersion(s: History)
    requires Versioned(s) && Live(s).Some?
    ensures TextAt(Live(s).value, VERSION) == Decimal(|s| - 1) && Decimal(|s| - 1) != ""
    ensures Storable(Live(s).value)
  {
    hide *;
    LiveIsStamped(s);
    TextOf(Live(s).value, VERSION, Decimal(|s| - 1));
    DecimalNonEmpty(|s| - 1);
    VersionStorable(Live(s).value);
  }

  /** The version that a sent patch tests is that of the object the decision was about. */
  predicate Tests(patch: seq<Op>, version: string) {
    patch != [] && patch[0] == Test(VERSION, version)
  }

  lemma PatchTests(s: History, o: Options, rest: seq<Op>)
    requires Versioned(s) && Live(s).Some?
    requires o.expectedResourceVersion == "" || o.expectedResourceVersion == TextAt(Live(s).value, VERSION)
    ensures Tests(VersionTest(Live(s).value, o) + rest, Decimal(|s| - 1))
  {
    LiveVersion(s);
  }

  /** A patch that tests the version of an earlier moment is accepted only if nothing was stored since. */
  lemma {:induction false} AcceptedMeansUntouched(s: History, later: History, patch: seq<Op>)
    requires Versioned(later) && s <= later && Live(s).Some?
    requires Tests(patch, Decimal(|s| - 1)) && Accepts(later, patch)
    ensures later == s
  {
    var live := Live(later).value;
    assert ApplyOp(live, patch[0]).Some?;
    assert At(live, VERSION) == Some(Str(Decimal(|later| - 1))) by {
      assert later[|later| - 1].Some?;
    }
    DecimalInjective(|s| - 1, |later| - 1);
  }

  /** The decision was sent, so the version it tests is that of the object read. */
  lemma {:induction false} SentRollbackTests(h: Hash, s: History, list: seq<Value>, target: Option<int>, o: Options,
                        clock: int, time: string)
    requires Versioned(s) && Live(s).Some? && Preflight(Live(s).value, o, clock).None?
    requires PlanRollback(h, Live(s).value, list, target, o, time).Send?
    ensures Tests(PlanRollback(h, Live(s).value, list, target, o, time).patch, Decimal(|s| - 1))
  {
    var plan := PlanRollback(h, Live(s).value, list, target, o, time);
    PatchTests(s, o, plan.patch[|VersionTest(Live(s).value, o)|..]);
    assert plan.patch == VersionTest(Live(s).value, o) + plan.patch[|VersionTest(Live(s).value, o)|..];
  }

  // ---------------------------------------------------------------- what the patches do

  const ANNOTATIONS: Path := ["metadata", "annotations"]

  predicate HasObject(v: Value, path: Path) { At(v, path).Some? && At(v, path).value.Obj? }

  lemma PathsApart()
    ensures Apart(TEMPLATE, CHANGE_CAUSE) && Apart(CHANGE_CAUSE, TEMPLATE) && Apart(TEMPLATE, ["metadata"])
    ensures Apart(TEMPLATE, ANNOTATIONS) && Apart(TEMPLATE, REPLICAS) && Apart(CHANGE_CAUSE, REPLICAS)
    ensures Apart(VERSION, TEMPLATE) && Apart(VERSION, REPLICAS) && Apart(REPLICAS, ["metadata"])
    ensures Apart(VERSION, CHANGE_CAUSE)
    ensures CHANGE_CAUSE[..2] == ANNOTATIONS && TEMPLATE[..1] == ["spec"] && REPLICAS[..1] == ["spec"]
  {
    assert TEMPLATE[0] != CHANGE_CAUSE[0];
    assert TEMPLATE[1..][0] != REPLICAS[1..][0] && Apart(TEMPLATE[1..], REPLICAS[1..]);
    assert VERSION[1..][0] != CHANGE_CAUSE[1..][0] && Apart(VERSION[1..], CHANGE_CAUSE[1..]);
    assert CHANGE_CAUSE[0] != REPLICAS[0] && VERSION[0] != TEMPLATE[0] && VERSION[0] != REPLICAS[0];
  }

  /** Replacing a member that exists is possible. */
  lemma ReplaceIff(v: Value, path: Path, x: Value)
    requires path != []
    ensures Put(v, path, x, true).Some? <==> At(v, path).Some?
    decreases |path|
  {
    if |path| == 1 {
      assert path[1..] == [];
      if v.Obj? && Lookup(v.fields, path[0]).Some? { assert At(Lookup(v.fields, path[0]).value, path[1..]).Some?; }
    } else if v.Obj? && Lookup(v.fields, path[0]).Some? {
      ReplaceIff(Lookup(v.fields, path[0]).value, path[1..], x);
    }
  }

  lemma StorableIff(v: Value)
    ensures Storable(v) <==> HasObject(v, ["metadata"])
  {
    assert ["metadata"][1..] == [];
    if v.Obj? && Lookup(v.fields, "metadata").Some? {
      assert At(Lookup(v.fields, "metadata").value, []) == Some(Lookup(v.fields, "metadata").value);
    }
  }

  /** The two changes of a rollback patch, on an object that passed the version test. */
  lemma {:induction false} RollbackChanges(v: Value, template: Value, cause: Value)
    requires Storable(v)
    ensures var r := ApplyPatch(v, [Replace(TEMPLATE, template), Add(CHANGE_CAUSE, cause)]);
            (r.Some? <==> At(v, TEMPLATE).Some? && HasObject(v, ANNOTATIONS))
            && (r.Some? ==>
                 Storable(r.value) && At(r.value, TEMPLATE) == Some(template)
                 && At(r.value, REPLICAS) == At(v, REPLICAS) && At(r.value, CHANGE_CAUSE) == Some(cause))
  {
    var p := [Replace(TEMPLATE, template), Add(CHANGE_CAUSE, cause)];
    assert p[1..] == [Add(CHANGE_CAUSE, cause)] && p[1..][1..] == [];
    PathsApart();
    ReplaceIff(v, TEMPLATE, template);
    var r1 := Put(v, TEMPLATE, template, true);
    if r1.Some? {
      PutEffect(v, TEMPLATE, template, true, ANNOTATIONS);
      PutEffect(v, TEMPLATE, template, true, REPLICAS);
      PutIff(r1.value, CHANGE_CAUSE, cause, false);
      var r2 := Put(r1.value, CHANGE_CAUSE, cause, false);
      assert ApplyPatch(v, p) == ApplyPatch(r1.value, p[1..]);
      if r2.Some? {
        assert ApplyPatch(v, p) == r2;
        PutEffect(r1.value, CHANGE_CAUSE, cause, false, TEMPLATE);
        PutEffect(r1.value, CHANGE_CAUSE, cause, false, REPLICAS);
        MetadataStays(r1.value, cause);
      }
    }
  }

  /** Adding an annotation leaves the metadata an object. */
  lemma MetadataStays(v: Value, cause: Value)
    requires Put(v, CHANGE_CAUSE, cause, false).Some?
    ensures Storable(Put(v, CHANGE_CAUSE, cause, false).value)
  {
    var path := CHANGE_CAUSE;
    var meta := Lookup(v.fields, "metadata").value;
    assert path[1..] == ["annotations", "kubernetes.io/change-cause"];
    var c := Put(meta, path[1..], cause, false);
    assert c.Some? && c.value.Obj?;
    AssignLookup(v.fields, "metadata", c.value, "metadata");
  }

  lemma {:induction false} ScaleChanges(v: Value, n: int)
    requires Storable(v)
    ensures var r := ApplyPatch(v, [Replace(REPLICAS, Num(IntText(n)))]);
            (r.Some? <==> At(v, REPLICAS).Some?)
            && (r.Some? ==> Storable(r.value) && ReplicasOf(r.value) == n && At(r.value, TEMPLATE) == At(v, TEMPLATE))
  {
    var x := Num(IntText(n));
    assert [Replace(REPLICAS, x)][1..] == [];
    ReplaceIff(v, REPLICAS, x);
    PathsApart();
    IntegerOfText(n);
    assert REPLICAS[1..][0] != TEMPLATE[1..][0] && Apart(REPLICAS[1..], TEMPLATE[1..]);
    if Put(v, REPLICAS, x, true).Some? {
      PutEffect(v, REPLICAS, x, true, TEMPLATE);
      PutEffect(v, REPLICAS, x, true, ["metadata"]);
      StorableIff(v);
      StorableIff(Put(v, REPLICAS, x, true).value);
    }
  }

  // ---------------------------------------------------------------- stored objects stay valid

  ghost predicate AllValid(ws: seq<Option<Value>>) {
    forall i :: 0 <= i < |ws| && ws[i].Some? ==> Valid(ws[i].value)
  }

  lemma {:induction false} WritesValid(s: History, ws: seq<Option<Value>>)
    requires AllValid(s) && AllValid(ws)
    ensures AllValid(Writes(s, ws))
    decreases |ws|
  {
    if ws != [] {
      WriteValid(s, ws[0]);
      assert AllValid(ws[1..]) by {
        forall i | 0 <= i < |ws[1..]| && ws[1..][i].Some?
          ensures Valid(ws[1..][i].value)
        { assert ws[1..][i] == ws[i + 1]; }
      }
      WritesValid(Write(s, ws[0]), ws[1..]);
    }
  }

  lemma WriteValid(s: History, w: Option<Value>)
    requires AllValid(s) && (w.Some? ==> Valid(w.value))
    ensures AllValid(Write(s, w))
  {
    if w.Some? && Storable(w.value) {
      PathsApart();
      StampedElsewhere(w.value, |s|, TEMPLATE);
    }
  }

  predicate OpValid(op: Op) { op.Test? || Valid(op.value) }

  lemma {:induction false} PatchKeepsValid(v: Value, patch: seq<Op>)
    requires Valid(v) && ApplyPatch(v, patch).Some? && forall i :: 0 <= i < |patch| ==> OpValid(patch[i])
    ensures Valid(ApplyPatch(v, patch).value)
    decreases |patch|
  {
    if patch != [] {
      assert OpValid(patch[0]);
      match patch[0] {
        case Test(_, _) =>
        case Replace(path, x) => PutValid(v, path, x, true);
        case Add(path, x) => PutValid(v, path, x, false);
      }
      PatchKeepsValid(ApplyOp(v, patch[0]).value, patch[1..]);
    }
  }

  // ---------------------------------------------------------------- a rollback that applies

  /** The version test passes exactly on the version it names, and then the two changes follow. */
  lemma {:induction false} AfterVersionTest(v: Value, version: string, rest: seq<Op>)
    ensures ApplyPatch(v, [Test(VERSION, version)] + rest)
            == if At(v, VERSION) == Some(Str(version)) then ApplyPatch(v, rest) else None
  {
    assert ([Test(VERSION, version)] + rest)[1..] == rest;
  }

  /** Everything the server needs of the live object to accept a rollback, and what it then stores. */
  lemma {:induction false} RollbackApplied(h: Hash, s: History, list: seq<Value>, target: Option<int>, o: Options,
                        clock: int, time: string)
    requires Versioned(s) && Live(s).Some? && Preflight(Live(s).value, o, clock).None?
    requires PlanRollback(h, Live(s).value, list, target, o, time).Send?
    ensures var d := Live(s).value;
            var plan := PlanRollback(h, d, list, target, o, time);
            var t := At(plan.chosen.rs, TEMPLATE);
            t.Some? && Typed(t.value) && plan.expectedHash == TemplateHash(h, t.value)
            && (Accepts(s, plan.patch) <==> At(d, TEMPLATE).Some? && HasObject(d, ANNOTATIONS))
            && (Accepts(s, plan.patch) ==>
                  var after := Live(Patched(s, plan.patch));
                  var stamped := Stamp(t.value, time, IntText(plan.chosen.rev), plan.expectedHash);
                  after.Some? && At(after.value, TEMPLATE) == Some(stamped)
                  && At(after.value, REPLICAS) == At(d, REPLICAS)
                  && At(after.value, CHANGE_CAUSE) == Some(Str(ChangeCause(plan.chosen.rev, plan.expectedHash))))
  {
    hide Choose, Candidates, TemplateHash, ChangeCause, IntText, Decimal, Put, Typed, Stamp, HasContainers;
    var d := Live(s).value;
    var plan := PlanRollback(h, d, list, target, o, time);
    var t := At(plan.chosen.rs, TEMPLATE).value;
    var stamped := Stamp(t, time, IntText(plan.chosen.rev), plan.expectedHash);
    var cause := Str(ChangeCause(plan.chosen.rev, plan.expectedHash));
    var rest := [Replace(TEMPLATE, stamped), Add(CHANGE_CAUSE, cause)];
    LiveVersion(s);
    LiveIsStamped(s);
    assert plan.patch == [Test(VERSION, Decimal(|s| - 1))] + rest;
    AfterVersionTest(d, Decimal(|s| - 1), rest);
    RollbackChanges(d, stamped, cause);
    if Accepts(s, plan.patch) {
      PathsApart();
      var w := ApplyPatch(d, plan.patch).value;
      StampedElsewhere(w, |s|, TEMPLATE);
      StampedElsewhere(w, |s|, REPLICAS);
      StampedElsewhere(w, |s|, CHANGE_CAUSE);
    }
  }

  /** A patch leaves everything apart from the places of its operations as it was. */
  lemma {:induction false} PatchFrame(v: Value, patch: seq<Op>, q: Path)
    requires ApplyPatch(v, patch).Some? && forall i :: 0 <= i < |patch| ==> patch[i].Test? || Apart(patch[i].path, q)
    ensures At(ApplyPatch(v, patch).value, q) == At(v, q)
    decreases |patch|
  {
    hide At, Put, Apart;
    if patch != [] {
      match patch[0] {
        case Test(_, _) =>
        case Replace(path, x) => PutEffect(v, path, x, true, q);
        case Add(path, x) => PutEffect(v, path, x, false, q);
      }
      PatchFrame(ApplyOp(v, patch[0]).value, patch[1..], q);
    }
  }

  /** What a patch stores differs from the object it was applied to only in those places and in the version. */
  lemma PatchedFrame(s: History, patch: seq<Op>, q: Path)
    requires Accepts(s, patch) && forall i :: 0 <= i < |patch| ==> patch[i].Test? || Apart(patch[i].path, q)
    requires Apart(VERSION, q)
    ensures Live(Patched(s, patch)).Some? && At(Live(Patched(s, patch)).value, q) == At(Live(s).value, q)
  {
    hide ApplyPatch, At, Apart, Stamped;
    PatchFrame(Live(s).value, patch, q);
    StampedElsewhere(ApplyPatch(Live(s).value, patch).value, |s|, q);
  }

  /** A rollback that is applied changes the template, the change cause and the version, and nothing else. */
  lemma {:induction false} RollbackFrame(h: Hash, s: History, list: seq<Value>, target: Option<int>, o: Options,
      time: string, q: Path)
    requires Live(s).Some? && PlanRollback(h, Live(s).value, list, target, o, time).Send?
    requires Accepts(s, PlanRollback(h, Live(s).value, list, target, o, time).patch)
    requires Apart(["spec", "template"], q) && Apart(["metadata", "resourceVersion"], q)
    requires Apart(["metadata", "annotations", "kubernetes.io/change-cause"], q)
    ensures var after := Live(Patched(s, PlanRollback(h, Live(s).value, list, target, o, time).patch));
            after.Some? && At(after.value, q) == At(Live(s).value, q)
  {
    hide ApplyPatch, At, Apart, Accepts, Choose, Candidates, TemplateHash, Stamp, ChangeCause, HasContainers, Typed;
    PatchedFrame(s, PlanRollback(h, Live(s).value, list, target, o, time).patch, q);
  }

  /** A scaling that is applied changes the count and the version, and nothing else. */
  lemma {:induction false} ScaleFrame(s: History, name: string, count: Count, o: Options, answer: HpaAnswer, q: Path)
    requires Live(s).Some? && PlanScale(Live(s).value, name, count, o, answer).SendScale?
    requires Accepts(s, PlanScale(Live(s).value, name, count, o, answer).patch)
    requires Apart(["spec", "replicas"], q) && Apart(["metadata", "resourceVersion"], q)
    ensures var after := Live(Patched(s, PlanScale(Live(s).value, name, count, o, answer).patch));
            after.Some? && At(after.value, q) == At(Live(s).value, q)
  {
    hide ApplyPatch, At, Apart, Accepts, CheckHpaOwnership, ReplicasOf, IntText;
    PatchedFrame(s, PlanScale(Live(s).value, name, count, o, answer).patch, q);
  }

  lemma RollbackOpsValid(d: Value, o: Options, t: Value, revision: int, hash: string, time: string)
    requires Typed(t) && Valid(Stamp(t, time, IntText(revision), hash))
    ensures var patch := RollbackPatch(d, o, t, revision, hash, time);
            forall i :: 0 <= i < |patch| ==> OpValid(patch[i])
  {
    hide Stamp, Typed, IntText, ChangeCause;
  }

  lemma {:induction false} RollbackKeepsValid(h: Hash, s: History, list: seq<Value>, target: Option<int>, o: Options,
                        clock: int, time: string)
    requires Versioned(s) && AllValid(s) && Live(s).Some? && Preflight(Live(s).value, o, clock).None?
    requires PlanRollback(h, Live(s).value, list, target, o, time).Send?
    requires forall v :: v in list ==> Valid(v)
    ensures AllValid(Patched(s, PlanRollback(h, Live(s).value, list, target, o, time).patch))
    ensures Valid(At(PlanRollback(h, Live(s).value, list, target, o, time).chosen.rs, TEMPLATE).value)
  {
    hide Choose, Candidates, TemplateHash, ChangeCause, IntText, Decimal, Put, Typed, HasContainers, Stamp,
        RollbackPatch, ApplyPatch, CanonicalTemplate;
    var d := Live(s).value;
    var plan := PlanRollback(h, d, list, target, o, time);
    ChosenIsCandidate(list, TextAt(d, UID), target, RevisionOf(d, "1"));
    AtValid(plan.chosen.rs, TEMPLATE);
    var t := At(plan.chosen.rs, TEMPLATE).value;
    StampInvisible(t, time, IntText(plan.chosen.rev), plan.expectedHash);
    RollbackOpsValid(d, o, t, plan.chosen.rev, plan.expectedHash, time);
    if Accepts(s, plan.patch) {
      assert Valid(d) by { assert s[|s| - 1].Some?; }
      PatchKeepsValid(d, plan.patch);
      WriteValid(s, ApplyPatch(d, plan.patch));
    }
  }

  lemma {:induction false} ChosenIsCandidate(list: seq<Value>, uid: string, target: Option<int>, current: Option<int>)
    ensures var c := Choose(Candidates(list, uid), target, current);
            c.Some? ==> c.value in Candidates(list, uid) && c.value.rs in list && HasOwner(c.value.rs, uid)
                        && RevisionOf(c.value.rs, "0") == Some(c.value.rev)
  {
    hide Candidates, HasOwner, RevisionOf;
    var cs := Candidates(list, uid);
    var c := Choose(cs, target, current);
    if c.Some? {
      if target.Some? {
        ExactRevision(cs, target.value, current, c.value);
        assert exists i :: OnlyAt(cs, target.value, i) && cs[i] == c.value;
      } else {
        PriorRevision(cs, current.value);
      }
      CandidatesMean(list, uid, c.value);
    }
  }

  // ---------------------------------------------------------------- what success means

  /** The requested revision when it is carried once; otherwise a greatest one below the current. */
  ghost predicate RightRevision(cs: seq<Candidate>, target: Option<int>, current: Option<int>, c: Candidate) {
    c in cs
    && match target
       case Some(rev) => exists i :: OnlyAt(cs, rev, i) && cs[i] == c
       case None =>
         current.Some? && c.rev < current.value
         && forall x :: x in cs && x.rev < current.value ==> x.rev <= c.rev
  }

  lemma {:induction false} ChoiceIsRight(cs: seq<Candidate>, target: Option<int>, current: Option<int>)
    requires Choose(cs, target, current).Some?
    ensures RightRevision(cs, target, current, Choose(cs, target, current).value)
  {
    var c := Choose(cs, target, current).value;
    if target.Some? {
      ExactRevision(cs, target.value, current, c);
      var i :| OnlyAt(cs, target.value, i) && cs[i] == c;
    } else {
      PriorRevision(cs, current.value);
    }
  }

  /** Nothing fits: the requested revision is not carried exactly once, or no revision is below the current one. */
  ghost predicate NoFit(cs: seq<Candidate>, target: Option<int>, current: Option<int>) {
    match target
    case Some(rev) => forall i :: 0 <= i < |cs| ==> !OnlyAt(cs, rev, i)
    case None => current.None? || forall c :: c in cs ==> c.rev >= current.value
  }

  lemma {:induction false} NoChoiceIff(cs: seq<Candidate>, target: Option<int>, current: Option<int>)
    ensures Choose(cs, target, current).None? <==> NoFit(cs, target, current)
  {
    if Choose(cs, target, current).Some? {
      ChoiceIsRight(cs, target, current);
      var c := Choose(cs, target, current).value;
      if target.Some? {
        var i :| OnlyAt(cs, target.value, i) && cs[i] == c;
      }
    } else if target.Some? {
      forall i | 0 <= i < |cs| ensures !OnlyAt(cs, target.value, i) {
        ExactRevision(cs, target.value, current, cs[i]);
      }
    } else if current.Some? {
      PriorRevision(cs, current.value);
    }
  }

  /** It has a list of containers, with something in it. */
  ghost predicate RunsContainers(rs: Value) {
    var containers := At(rs, ["spec", "template", "spec", "containers"]);
    containers.Some? && containers.value.Arr? && containers.value.items != []
  }

  lemma {:induction false} AtThrough(v: Value, p: Path, q: Path)
    ensures At(v, p + q) == if At(v, p).Some? then At(At(v, p).value, q) else None
    decreases |p|
  {
    if p == [] {
      assert p + q == q;
    } else {
      assert (p + q)[0] == p[0] && (p + q)[1..] == p[1..] + q;
      if v.Obj? && Lookup(v.fields, p[0]).Some? {
        AtThrough(Lookup(v.fields, p[0]).value, p[1..], q);
      }
    }
  }

  lemma RunsIff(rs: Value)
    ensures RunsContainers(rs) <==> At(rs, TEMPLATE).Some? && HasContainers(At(rs, TEMPLATE).value)
  {
    hide At;
    AtThrough(rs, TEMPLATE, ["spec", "containers"]);
    assert TEMPLATE + ["spec", "containers"] == ["spec", "template", "spec", "containers"];
  }

  /**
    Which decision a rollback takes once its Deployment has passed the checks: no target when nothing fits or what fits
    runs no containers, a stale proposal when its template is not the approved one.
   */
  lemma {:induction false} RollbackDecision(h: Hash, d: Value, list: seq<Value>, target: Option<int>, o: Options,
      time: string)
    ensures var plan := PlanRollback(h, d, list, target, o, time);
            var cs, current := Candidates(list, TextAt(d, UID)), RevisionOf(d, "1");
            var choice := Choose(cs, target, current);
            var eligible := choice.Some? && RunsContainers(choice.value.rs);
            var stale := eligible && o.snapshot.Some? && o.snapshot.value.targetTemplateHash != ""
                         && o.snapshot.value.targetTemplateHash
                            != TemplateHash(h, At(choice.value.rs, ["spec", "template"]).value);
            (choice.None? <==> NoFit(cs, target, current))
            && (plan == Refuse(TARGET_NOT_FOUND) <==> !eligible)
            && (plan == Refuse(STALE_PROPOSAL) <==> stale)
            && (plan == Refuse(EXECUTION_FAILED)
                <==> eligible && !stale && !Typed(At(choice.value.rs, ["spec", "template"]).value))
            && (plan.Send? ==> eligible && plan.chosen == choice.value)
  {
    hide At, Choose, Candidates, NoFit, RunsContainers, HasContainers, TemplateHash, RollbackPatch, Typed;
    var choice := Choose(Candidates(list, TextAt(d, UID)), target, RevisionOf(d, "1"));
    NoChoiceIff(Candidates(list, TextAt(d, UID)), target, RevisionOf(d, "1"));
    if choice.Some? {
      RunsIff(choice.value.rs);
    }
  }

  /** The revision number of an object is that of its annotation; without one, or with an empty one, the default. */
  lemma {:induction false} RevisionMeans(v: Value, n: nat, default: nat)
    ensures At(v, ["metadata", "annotations", "deployment.kubernetes.io/revision"]) == Some(Str(Decimal(n))) ==>
              RevisionOf(v, Decimal(default)) == Some(n)
    ensures At(v, ["metadata", "annotations", "deployment.kubernetes.io/revision"]) in {None, Some(Str(""))} ==>
              RevisionOf(v, Decimal(default)) == Some(default)
  {
    hide At, Decimal, ParseInt;
    ParseDecimal(n);
    ParseDecimal(default);
    DecimalNonEmpty(n);
  }

  /** The decision of this rollback was to send a patch. */
  predicate Sends(h: Hash, s: History, target: Option<int>, o: Options, env: Environment) {
    env.read.None? && Live(s).Some? && Preflight(Live(s).value, o, env.clock).None? && env.list.Ok?
    && PlanRollback(h, Live(s).value, env.list.value, target, o, env.time).Send?
  }

  /**
    What a fault is answered with: STALE_TARGET exactly for one that reads as a conflict, wherever it strikes, and
    nothing is written by the call; a failed verifying read is a failed verification.
   */
  lemma {:induction false} FaultAnswers(h: Hash, s: History, target: Option<int>, o: Options, env: Environment,
      f: Failure)
    ensures var (r, after) := Rollback(h, s, target, o, env);
            var answer := Refused(if f.conflict then STALE_TARGET else EXECUTION_FAILED);
            (env.read == Some(f) ==> r == answer && after == s)
            && (env.read.None? && Live(s).Some? && Preflight(Live(s).value, o, env.clock).None?
                && env.list == Err(f) ==>
                  r == answer && after == s)
            && (Sends(h, s, target, o, env) && env.fate == RequestFailed(f) ==>
                 r == answer && after == Writes(s, env.beforePatch))
            && (env.read.None? && Live(s).None? ==> r == Refused(EXECUTION_FAILED) && after == s)
            && (env.reread == Some(f) ==> !r.success)
            && (r.code.Some? && r.code != Some(VERIFICATION_FAILED) ==> !r.success && r.revision == -1)
  {
    hide PlanRollback, Preflight, Writes, Verified, Accepts;
  }

  ghost predicate Wellformed(s: History, env: Environment) {
    Versioned(s) && AllValid(s) && AllValid(env.beforePatch) && AllValid(env.beforeVerify)
    && (env.list.Ok? ==> forall v :: v in env.list.value ==> Valid(v))
  }

  /**
    A rollback that got past its patch: the plan, sent and accepted on an object nobody had touched since it was
    read.
   */
  lemma {:induction false} PatchedRollback(h: Hash, s: History, target: Option<int>, o: Options, env: Environment)
    returns (plan: Plan)
    requires Wellformed(s, env)
    requires Rollback(h, s, target, o, env).0.success
             || Rollback(h, s, target, o, env).0.code == Some(VERIFICATION_FAILED)
    ensures Versioned(s) && Live(s).Some? && env.list.Ok? && Preflight(Live(s).value, o, env.clock).None?
    ensures plan.Send? && plan == PlanRollback(h, Live(s).value, env.list.value, target, o, env.time)
    ensures Writes(s, env.beforePatch) == s && Accepts(s, plan.patch)
    ensures Rollback(h, s, target, o, env).1 == Writes(Patched(s, plan.patch), env.beforeVerify)
    ensures Rollback(h, s, target, o, env).0.revision == plan.chosen.rev
    ensures Rollback(h, s, target, o, env).0.success
            <==> env.reread.None? && Verified(h, Rollback(h, s, target, o, env).1, plan.expectedHash)
  {
    hide Choose, Candidates, TemplateHash, RollbackPatch, Typed, HasContainers, Writes, Decimal, ApplyPatch, Verified;
    PreflightMeans(Live(s).value, o, env.clock);
    PlanCodes(h, Live(s).value, if env.list.Ok? then env.list.value else [], target, o, env.time);
    plan := PlanRollback(h, Live(s).value, env.list.value, target, o, env.time);
    var s1 := Writes(s, env.beforePatch);
    WritesVersioned(s, env.beforePatch);
    SentRollbackTests(h, s, env.list.value, target, o, env.clock, env.time);
    AcceptedMeansUntouched(s, s1, plan.patch);
  }

  lemma PlanCodes(h: Hash, d: Value, list: seq<Value>, target: Option<int>, o: Options, time: string)
    ensures var plan := PlanRollback(h, d, list, target, o, time);
            plan.Refuse? ==> plan.code in {TARGET_NOT_FOUND, STALE_PROPOSAL, EXECUTION_FAILED}
  {
  }

  lemma {:induction false} SuccessfulChoice(h: Hash, d: Value, list: seq<Value>, target: Option<int>, o: Options,
      time: string)
    requires PlanRollback(h, d, list, target, o, time).Send?
    ensures var c := PlanRollback(h, d, list, target, o, time).chosen;
            c.rs in list && HasOwner(c.rs, TextAt(d, UID)) && RevisionOf(c.rs, "0") == Some(c.rev)
            && RightRevision(Candidates(list, TextAt(d, UID)), target, RevisionOf(d, "1"), c)
  {
    hide Candidates, RevisionOf, HasOwner, TemplateHash, RightRevision, RollbackPatch, Typed, HasContainers,
        Choose, At;
    ChosenIsCandidate(list, TextAt(d, UID), target, RevisionOf(d, "1"));
    ChoiceIsRight(Candidates(list, TextAt(d, UID)), target, RevisionOf(d, "1"));
  }

  lemma {:induction false} SuccessValid(h: Hash, s: History, target: Option<int>, o: Options, env: Environment,
      plan: Plan)
    requires Wellformed(s, env) && Live(s).Some? && env.list.Ok? && Preflight(Live(s).value, o, env.clock).None?
    requires plan.Send? && plan == PlanRollback(h, Live(s).value, env.list.value, target, o, env.time)
    ensures AllValid(Writes(Patched(s, plan.patch), env.beforeVerify))
    ensures At(plan.chosen.rs, TEMPLATE).Some? && Valid(At(plan.chosen.rs, TEMPLATE).value)
  {
    hide PlanRollback, Preflight, Writes, Patched, At;
    RollbackApplied(h, s, env.list.value, target, o, env.clock, env.time);
    RollbackKeepsValid(h, s, env.list.value, target, o, env.clock, env.time);
    WritesValid(Patched(s, plan.patch), env.beforeVerify);
  }

  /** The hash comparison at the verifying read is a comparison of canonical forms. */
  lemma {:induction false} VerifiedForm(h: Hash, s: History, expectedHash: string, t: Value)
    requires Injective(h) && AllValid(s) && Valid(t) && expectedHash == TemplateHash(h, t)
    requires Verified(h, s, expectedHash)
    ensures Live(s).Some? && At(Live(s).value, TEMPLATE).Some?
    ensures CanonicalTemplate(At(Live(s).value, TEMPLATE).value) == CanonicalTemplate(t)
  {
    hide At, CanonicalTemplate, TemplateHash;
    var live := Live(s).value;
    assert Valid(live) by { assert s[|s| - 1].Some?; }
    AtValid(live, TEMPLATE);
    HashComparesForms(h, At(live, TEMPLATE).value, t);
  }

  /** The checks before the listing: each refusal names what no longer holds, and passing means that all of it does. */
  lemma PreflightMeans(d: Value, o: Options, clock: int)
    ensures var uid, version := TextAt(d, UID), TextAt(d, VERSION);
            var snap := if o.snapshot.Some? then o.snapshot.value else NO_SNAPSHOT;
            match Preflight(d, o, clock)
            case Some(TARGET_NOT_FOUND) => uid == ""
            case Some(STALE_PROPOSAL) => snap.deploymentUid != "" && snap.deploymentUid != uid
            case Some(APPROVAL_EXPIRED) => snap.expiresAt.Some? && snap.expiresAt.value <= clock
            case Some(STALE_TARGET) =>
              (snap.resourceVersion != "" && snap.resourceVersion != version)
              || (o.expectedResourceVersion != "" && o.expectedResourceVersion != version)
            case Some(_) => false
            case None =>
              uid != "" && WithinApproval(d, snap, clock)
              && (o.expectedResourceVersion != "" ==> o.expectedResourceVersion == version)
  {
  }

  /** Of several refusals the first in this order is told. */
  lemma PreflightOrder(d: Value, o: Options, clock: int)
    ensures var uid, version := TextAt(d, UID), TextAt(d, VERSION);
            var snap := if o.snapshot.Some? then o.snapshot.value else NO_SNAPSHOT;
            var other := snap.deploymentUid != "" && snap.deploymentUid != uid;
            var changed := snap.resourceVersion != "" && snap.resourceVersion != version;
            var expired := snap.expiresAt.Some? && snap.expiresAt.value <= clock;
            var unexpected := o.expectedResourceVersion != "" && o.expectedResourceVersion != version;
            (Preflight(d, o, clock) == Some(TARGET_NOT_FOUND) <==> uid == "")
            && (Preflight(d, o, clock) == Some(STALE_PROPOSAL) <==> uid != "" && other)
            && (Preflight(d, o, clock) == Some(STALE_TARGET)
                <==> uid != "" && !other && (changed || (!expired && unexpected)))
            && (Preflight(d, o, clock) == Some(APPROVAL_EXPIRED) <==> uid != "" && !other && !changed && expired)
  {
    hide At;
  }

  /** The Deployment is the approved one, in the approved version, before the deadline; empty fields bind nothing. */
  predicate WithinApproval(d: Value, snap: Snapshot, clock: int) {
    (snap.deploymentUid != "" ==> TextAt(d, UID) == snap.deploymentUid)
    && (snap.resourceVersion != "" ==> TextAt(d, VERSION) == snap.resourceVersion)
    && (snap.expiresAt.Some? ==> clock < snap.expiresAt.value)
  }

  /**
    A rollback writes only within its approval snapshot: the object it replaces is the approved Deployment in
    the approved version, read before the deadline, and the ReplicaSet whose template it writes has the approved
    hash.
   */
  lemma {:induction false} WritesOnlyWhatWasApproved(h: Hash, s: History, target: Option<int>, o: Options,
      env: Environment)
    requires Versioned(s) && o.snapshot.Some?
    requires Rollback(h, s, target, o, env).1 != s && Rollback(h, s, target, o, env).1 != Writes(s, env.beforePatch)
    ensures Live(s).Some? && env.list.Ok? && Writes(s, env.beforePatch) == s
    ensures WithinApproval(Live(s).value, o.snapshot.value, env.clock)
    ensures var plan := PlanRollback(h, Live(s).value, env.list.value, target, o, env.time);
            plan.Send? && At(plan.chosen.rs, TEMPLATE).Some? && plan.chosen.rs in env.list.value
            && HasOwner(plan.chosen.rs, TextAt(Live(s).value, UID))
            && (o.snapshot.value.targetTemplateHash != ""
                ==> TemplateHash(h, At(plan.chosen.rs, TEMPLATE).value) == o.snapshot.value.targetTemplateHash)
  {
    hide Choose, Candidates, TemplateHash, RollbackPatch, Typed, HasContainers, Writes, Decimal, ApplyPatch,
        Preflight, At, Verified;
    var d := Live(s).value;
    PreflightMeans(d, o, env.clock);
    var plan := PlanRollback(h, d, env.list.value, target, o, env.time);
    var s1 := Writes(s, env.beforePatch);
    WritesVersioned(s, env.beforePatch);
    assert Accepts(s1, plan.patch);
    SentRollbackTests(h, s, env.list.value, target, o, env.clock, env.time);
    AcceptedMeansUntouched(s, s1, plan.patch);
    SuccessfulChoice(h, d, env.list.value, target, o, env.time);
  }

  /**
    A successful rollback: at the verifying read the live template has the canonical form of a ReplicaSet that the
    Deployment controls, of the right revision, and the patch replaced the very object that the call had read.
   */
  lemma {:induction false} RollbackSuccess(h: Hash, s: History, target: Option<int>, o: Options, env: Environment)
    returns (c: Candidate)
    requires Injective(h) && Wellformed(s, env) && Rollback(h, s, target, o, env).0.success
    ensures Live(s).Some? && env.list.Ok? && Writes(s, env.beforePatch) == s
    ensures var d := Live(s).value;
            c.rs in env.list.value && HasOwner(c.rs, TextAt(d, UID)) && RevisionOf(c.rs, "0") == Some(c.rev)
            && RightRevision(Candidates(env.list.value, TextAt(d, UID)), target, RevisionOf(d, "1"), c)
            && Rollback(h, s, target, o, env).0.revision == c.rev
    ensures var live := Live(Rollback(h, s, target, o, env).1);
            At(c.rs, TEMPLATE).Some? && live.Some? && At(live.value, TEMPLATE).Some?
            && CanonicalTemplate(At(live.value, TEMPLATE).value) == CanonicalTemplate(At(c.rs, TEMPLATE).value)
  {
    hide *;
    var plan := PatchedRollback(h, s, target, o, env);
    var d := Live(s).value;
    c := plan.chosen;
    SuccessfulChoice(h, d, env.list.value, target, o, env.time);
    RollbackApplied(h, s, env.list.value, target, o, env.clock, env.time);
    SuccessValid(h, s, target, o, env, plan);
    VerifiedForm(h, Rollback(h, s, target, o, env).1, plan.expectedHash, At(c.rs, TEMPLATE).value);
  }

  predicate NothingWritten(code: Code) {
    code == TARGET_NOT_FOUND || code == STALE_PROPOSAL || code == STALE_TARGET || code == APPROVAL_EXPIRED
  }

  /** These four answers say that the call wrote nothing: what is stored is what others stored. */
  lemma {:induction false} RefusalWritesNothing(h: Hash, s: History, target: Option<int>, o: Options, env: Environment)
    requires Rollback(h, s, target, o, env).0.code.Some? && NothingWritten(Rollback(h, s, target, o, env).0.code.value)
    ensures Rollback(h, s, target, o, env).1 == s || Rollback(h, s, target, o, env).1 == Writes(s, env.beforePatch)
  {
    hide PlanRollback, Preflight, Writes, Verified, ApplyPatch;
  }

  /** What becomes of a patch that finds the history grown since the read: nothing is stored. */
  lemma {:induction false} LatePatch(s: History, later: History, patch: seq<Op>)
    requires Versioned(later) && s <= later && s != later && Live(s).Some? && Tests(patch, Decimal(|s| - 1))
    ensures !Accepts(later, patch)
    ensures Submit(later, patch, Delivered) ==
            (Some(if Live(later).Some? then STALE_TARGET else EXECUTION_FAILED), later)
  {
    hide Decimal, ApplyPatch, Tests;
    if Accepts(later, patch) {
      AcceptedMeansUntouched(s, later, patch);
    }
  }

  /**
    Any write between the read and the patch turns the rollback away with nothing written by the call. The answer is
    STALE_TARGET exactly when there still is an object; after a deletion it is EXECUTION_FAILED.
   */
  lemma {:induction false} ConcurrentWriteRefused(h: Hash, s: History, target: Option<int>, o: Options,
      env: Environment)
    requires Versioned(s) && Sends(h, s, target, o, env) && env.fate.Delivered? && Writes(s, env.beforePatch) != s
    ensures var (r, after) := Rollback(h, s, target, o, env);
            after == Writes(s, env.beforePatch) && (r == Refused(STALE_TARGET) || r == Refused(EXECUTION_FAILED))
            && (r == Refused(STALE_TARGET) <==> Live(Writes(s, env.beforePatch)).Some?)
  {
    hide Choose, Candidates, TemplateHash, RollbackPatch, Typed, HasContainers, Writes, Decimal, ApplyPatch,
        Preflight, PlanRollback, Submit;
    var plan := PlanRollback(h, Live(s).value, env.list.value, target, o, env.time);
    WritesVersioned(s, env.beforePatch);
    SentRollbackTests(h, s, env.list.value, target, o, env.clock, env.time);
    LatePatch(s, Writes(s, env.beforePatch), plan.patch);
  }

  /**
    EXECUTION_FAILED leaves open whether the call wrote. It did exactly when its patch was sent, nobody else
    wrote before it, the live object has a template and annotations, and the answer was lost.
   */
  lemma {:induction false} FailureWroteIff(h: Hash, s: History, target: Option<int>, o: Options, env: Environment)
    requires Versioned(s) && Rollback(h, s, target, o, env).0.code == Some(EXECUTION_FAILED)
    ensures Rollback(h, s, target, o, env).1 != s && Rollback(h, s, target, o, env).1 != Writes(s, env.beforePatch)
            <==> Sends(h, s, target, o, env) && env.fate.AnswerLost? && Writes(s, env.beforePatch) == s
                 && At(Live(s).value, TEMPLATE).Some? && HasObject(Live(s).value, ANNOTATIONS)
  {
    hide Choose, Candidates, TemplateHash, RollbackPatch, Typed, HasContainers, Decimal, ApplyPatch, Preflight,
        PlanRollback, Writes, Verified, At, HasObject;
    if Sends(h, s, target, o, env) {
      var plan := PlanRollback(h, Live(s).value, env.list.value, target, o, env.time);
      WritesVersioned(s, env.beforePatch);
      SentRollbackTests(h, s, env.list.value, target, o, env.clock, env.time);
      if Writes(s, env.beforePatch) != s {
        LatePatch(s, Writes(s, env.beforePatch), plan.patch);
      }
      RollbackApplied(h, s, env.list.value, target, o, env.clock, env.time);
    }
  }

  /**
    What becomes of a rollback that is sent. The server stores its patch exactly when nobody wrote since the
    read and the live object has a template and annotations; a stored one answers by its verification, a refused
    one says whether there still is an object, and a lost answer says nothing.
   */
  lemma {:induction false} SentRollbackAnswers(h: Hash, s: History, target: Option<int>, o: Options, env: Environment)
    requires Versioned(s) && Sends(h, s, target, o, env) && !env.fate.RequestFailed?
    ensures var (r, after) := Rollback(h, s, target, o, env);
            var later := Writes(s, env.beforePatch);
            var stored := later == s && At(Live(s).value, ["spec", "template"]).Some?
                          && HasObject(Live(s).value, ["metadata", "annotations"]);
            (env.fate.AnswerLost? ==>
               r == Refused(EXECUTION_FAILED) && (if stored then |after| == |s| + 1 && s <= after else after == later))
            && (env.fate.Delivered? && !stored ==>
                  r == Refused(if Live(later).Some? then STALE_TARGET else EXECUTION_FAILED) && after == later)
            && (env.fate.Delivered? && stored ==> r.success || r.code == Some(VERIFICATION_FAILED))
  {
    hide Choose, Candidates, TemplateHash, RollbackPatch, Typed, HasContainers, Decimal, ApplyPatch, Preflight,
        PlanRollback, Writes, Verified, At, HasObject, Stamped;
    var plan := PlanRollback(h, Live(s).value, env.list.value, target, o, env.time);
    WritesVersioned(s, env.beforePatch);
    SentRollbackTests(h, s, env.list.value, target, o, env.clock, env.time);
    if Writes(s, env.beforePatch) != s {
      LatePatch(s, Writes(s, env.beforePatch), plan.patch);
    }
    RollbackApplied(h, s, env.list.value, target, o, env.clock, env.time);
  }

  predicate Quiet(env: Environment) {
    env.read.None? && env.reread.None? && env.list.Ok? && env.fate.Delivered?
    && env.beforePatch == [] && env.beforeVerify == []
  }

  /**
    With no fault and nobody else writing, a rollback succeeds exactly when it is sent, the live object has a
    template and annotations, and the chosen template has an annotations object. Without the last it is applied
    all the same and reported as failing verification.
   */
  lemma {:induction false} QuietRollbackIff(h: Hash, s: History, target: Option<int>, o: Options, env: Environment)
    requires Injective(h) && Wellformed(s, env) && Quiet(env) && Live(s).Some?
    requires Preflight(Live(s).value, o, env.clock).None?
    requires PlanRollback(h, Live(s).value, env.list.value, target, o, env.time).Send?
    ensures var d := Live(s).value;
            var t := At(PlanRollback(h, d, env.list.value, target, o, env.time).chosen.rs, TEMPLATE);
            var (r, after) := Rollback(h, s, target, o, env);
            t.Some? && Typed(t.value)
            && (r.success <==> At(d, TEMPLATE).Some? && HasObject(d, ANNOTATIONS) && HasAnnotations(t.value))
            && (after != s <==> At(d, TEMPLATE).Some? && HasObject(d, ANNOTATIONS))
            && (after != s && !r.success ==> r.code == Some(VERIFICATION_FAILED))
  {
    hide Candidates, RevisionOf, Controlled, CanonicalTemplate, TemplateHash, Preflight, RollbackPatch,
        HasContainers, Choose, PlanRollback, ApplyPatch, Decimal, Stamp, Typed, HasAnnotations;
    var d := Live(s).value;
    var plan := PlanRollback(h, d, env.list.value, target, o, env.time);
    RollbackApplied(h, s, env.list.value, target, o, env.clock, env.time);
    RollbackKeepsValid(h, s, env.list.value, target, o, env.clock, env.time);
    var t := At(plan.chosen.rs, TEMPLATE).value;
    var s2 := Patched(s, plan.patch);
    assert Writes(s, env.beforePatch) == s && Writes(s2, env.beforeVerify) == s2;
    StampInvisible(t, env.time, IntText(plan.chosen.rev), plan.expectedHash);
    HashComparesForms(h, Stamp(t, env.time, IntText(plan.chosen.rev), plan.expectedHash), t);
    assert Accepts(s, plan.patch) ==> |s2| == |s| + 1;
  }

  // ---------------------------------------------------------------- what a scaling call does

  /** The listing of autoscalers was available, or said 404, and none of them manages the Deployment. */
  predicate NoHpa(answer: HpaAnswer, name: string) {
    match answer
    case Items(items) => forall hpa :: hpa in items ==> !(hpa.targetKind == "Deployment" && hpa.targetName == name)
    case Malformed => false
    case HpaError(statusCode) => statusCode == 404
  }

  /** The count of an object is the number written there; one that is not given counts as 1. */
  lemma ReplicasMeans(d: Value, n: int)
    ensures At(d, ["spec", "replicas"]) == Some(Num(IntText(n))) ==> ReplicasOf(d) == n
    ensures At(d, ["spec", "replicas"]).None? ==> ReplicasOf(d) == 1
  {
    hide At, IntText;
    IntegerOfText(n);
  }

  /** When a scaling is sent, and which refusal names which obstacle. */
  lemma ScaleDecision(d: Value, name: string, count: Count, o: Options, answer: HpaAnswer)
    ensures var plan := PlanScale(d, name, count, o, answer);
            var sized := count.Integer? && 1 <= count.n <= 20;
            var current := o.expectedResourceVersion == "" || o.expectedResourceVersion == TextAt(d, VERSION);
            var near := sized && ReplicasOf(d) - 5 <= count.n <= ReplicasOf(d) + 5;
            var listed := answer.Items? || (answer.HpaError? && answer.statusCode == 404);
            (plan.SendScale? <==> sized && current && near && NoHpa(answer, name))
            && (plan == RefuseScale(STALE_TARGET) <==> sized && !current)
            && (plan == RefuseScale(DEPENDENCY_UNAVAILABLE) <==> sized && current && near && !listed)
            && (plan == RefuseScale(PARAMETER_REJECTED)
                <==> !sized || (current && (!near || (listed && !NoHpa(answer, name)))))
  {
    hide At;
    if answer.Items? {
      assert forall i :: 0 <= i < |answer.items| ==> answer.items[i] in answer.items;
    }
  }

  /** A scaling patch is accepted only on the version it read, and then changes nothing but the count. */
  lemma {:induction false} ScaleApplied(s: History, later: History, name: string, count: Count, o: Options,
      answer: HpaAnswer)
    requires Versioned(later) && s <= later && Live(s).Some?
    requires PlanScale(Live(s).value, name, count, o, answer).SendScale?
    requires Accepts(later, PlanScale(Live(s).value, name, count, o, answer).patch)
    ensures later == s && count.Integer? && 1 <= count.n <= 20 && Distance(count.n, ReplicasOf(Live(s).value)) <= 5
    ensures NoHpa(answer, name)
    ensures var after := Live(Patched(later, PlanScale(Live(s).value, name, count, o, answer).patch));
            after.Some? && ReplicasOf(after.value) == count.n
            && At(after.value, TEMPLATE) == At(Live(s).value, TEMPLATE)
  {
    hide IntText, Decimal, Put;
    var d := Live(s).value;
    var patch := PlanScale(d, name, count, o, answer).patch;
    var rest := [Replace(REPLICAS, Num(IntText(count.n)))];
    assert Versioned(s) by {
      forall i | 0 <= i < |s| && s[i].Some?
        ensures At(s[i].value, VERSION) == Some(Str(Decimal(i)))
      { assert later[i] == s[i]; }
    }
    PatchTests(s, o, rest);
    assert patch == VersionTest(d, o) + rest;
    AcceptedMeansUntouched(s, later, patch);
    LiveVersion(s);
    AfterVersionTest(d, Decimal(|s| - 1), rest);
    ScaleChanges(d, count.n);
    PathsApart();
    var w := ApplyPatch(d, patch).value;
    StampedElsewhere(w, |s|, TEMPLATE);
    StampedElsewhere(w, |s|, REPLICAS);
  }

  predicate SendsScale(s: History, name: string, count: Count, o: Options, answer: HpaAnswer, read: Option<Failure>) {
    CountAllowed(count) && read.None? && Live(s).Some? && PlanScale(Live(s).value, name, count, o, answer).SendScale?
  }

  lemma {:induction false} SentScaleTests(s: History, name: string, count: Count, o: Options, answer: HpaAnswer)
    requires Versioned(s) && Live(s).Some? && PlanScale(Live(s).value, name, count, o, answer).SendScale?
    ensures Tests(PlanScale(Live(s).value, name, count, o, answer).patch, Decimal(|s| - 1))
    ensures Accepts(s, PlanScale(Live(s).value, name, count, o, answer).patch) <==> At(Live(s).value, REPLICAS).Some?
  {
    hide IntText, Decimal, Put, At;
    var d := Live(s).value;
    var rest := [Replace(REPLICAS, Num(IntText(count.n)))];
    PatchTests(s, o, rest);
    LiveVersion(s);
    LiveIsStamped(s);
    AfterVersionTest(d, Decimal(|s| - 1), rest);
    ScaleChanges(d, count.n);
  }

  /**
    The same two results for scaling: a concurrent write turns it away, and a failure hides a write only in a
    lost answer.
   */
  lemma {:induction false} ScaleRefusedOrLost(s: History, name: string, count: Count, o: Options, answer: HpaAnswer,
                                              read: Option<Failure>, beforePatch: seq<Option<Value>>, fate: Fate)
    requires Versioned(s)
    ensures var (code, after) := Scale(s, name, count, o, answer, read, beforePatch, fate);
            var later := Writes(s, beforePatch);
            (SendsScale(s, name, count, o, answer, read) && fate.Delivered? && later != s ==>
               after == later && code == Some(if Live(later).Some? then STALE_TARGET else EXECUTION_FAILED))
            && (code == Some(EXECUTION_FAILED) ==>
                  (after != s && after != later
                   <==> SendsScale(s, name, count, o, answer, read) && fate.AnswerLost? && later == s
                        && At(Live(s).value, REPLICAS).Some?))
  {
    hide PlanScale, Decimal, ApplyPatch, Writes, At;
    if SendsScale(s, name, count, o, answer, read) {
      var patch := PlanScale(Live(s).value, name, count, o, answer).patch;
      WritesVersioned(s, beforePatch);
      SentScaleTests(s, name, count, o, answer);
      if Writes(s, beforePatch) != s {
        LatePatch(s, Writes(s, beforePatch), patch);
      }
    }
  }

  /**
    The answer of a scaling call. It succeeds exactly when its patch was sent, arrived, found the object untouched since
    the read, and a count to replace; every other answer names its obstacle, with nothing written before the patch.
   */
  lemma {:induction false} ScaleAnswers(s: History, name: string, count: Count, o: Options, answer: HpaAnswer,
                                        read: Option<Failure>, beforePatch: seq<Option<Value>>, fate: Fate)
    requires Versioned(s)
    ensures var (code, after) := Scale(s, name, count, o, answer, read, beforePatch, fate);
            var later := Writes(s, beforePatch);
            (code.None? <==> SendsScale(s, name, count, o, answer, read) && fate.Delivered? && later == s
                             && At(Live(s).value, ["spec", "replicas"]).Some?)
            && (!CountAllowed(count) ==> code == Some(PARAMETER_REJECTED) && after == s)
            && (CountAllowed(count) && read.Some? ==>
                  code == Some(if read.value.conflict then STALE_TARGET else EXECUTION_FAILED) && after == s)
            && (CountAllowed(count) && read.None? && Live(s).None? ==> code == Some(EXECUTION_FAILED) && after == s)
            && (CountAllowed(count) && read.None? && Live(s).Some? ==>
                  match PlanScale(Live(s).value, name, count, o, answer)
                  case RefuseScale(c) => code == Some(c) && after == s
                  case SendScale(_) =>
                    fate.RequestFailed? ==>
                      code == Some(if fate.failure.conflict then STALE_TARGET else EXECUTION_FAILED) && after == later)
  {
    hide PlanScale, Decimal, ApplyPatch, Writes, At;
    if SendsScale(s, name, count, o, answer, read) {
      var patch := PlanScale(Live(s).value, name, count, o, answer).patch;
      WritesVersioned(s, beforePatch);
      SentScaleTests(s, name, count, o, answer);
      if Writes(s, beforePatch) != s {
        LatePatch(s, Writes(s, beforePatch), patch);
      }
    }
  }
}
