/**
  Canonical pod templates and their hash
  (packages/event-schema/src/template-canonicalizer.ts), and the annotations that a rollback
  stamps on the template it writes (services/execution-service/src/k8s-client.ts).
 */
module PodTemplate {
  import opened Wrappers
  import opened Json
  import opened Text
  import opened Canonicalizer

  const VOLATILE: set<string> := {"creationTimestamp", "generation", "resourceVersion", "uid"}

  predicate Bookkeeping(k: string) {
    StartsWith(k, "ai-sre-commander/") || StartsWith(k, "kubectl.kubernetes.io/restartedAt")
  }

  /** `typeof v === 'object'` for a truthy value. */
  predicate IsContainer(v: Value) { v.Obj? || v.Arr? }

  /** `String(v)`. */
  function JsString(v: Value): string
    decreases v, 0
  {
    match v
    case Null => "null"
    case Bool(b) => if b then "true" else "false"
    case Num(t) => t
    case Str(s) => s
    case Arr(items) => if items == [] then "" else ElementString(items[0]) + JoinTail(items[1..])
    case Obj(_) => "[object Object]"
  }

  function ElementString(v: Value): string
    decreases v, 1
  {
    if v.Null? then "" else JsString(v)
  }

  function JoinTail(items: seq<Value>): string {
    if items == [] then "" else "," + ElementString(items[0]) + JoinTail(items[1..])
  }

  /** What `String` makes of a value: lists are joined by commas, with nothing for `null`. */
  lemma {:induction false} JsStringMeans(v: Value)
    ensures v == Null ==> JsString(v) == "null"
    ensures v.Bool? ==> JsString(v) == if v.b then "true" else "false"
    ensures v.Num? ==> JsString(v) == v.token
    ensures v.Str? ==> JsString(v) == v.s
    ensures v.Arr? ==> JsString(v) == Commas(ElementTexts(v.items))
    ensures v.Obj? ==> JsString(v) == "[object Object]"
  {
    if v.Arr? && v.items != [] {
      JoinedText(v.items[1..]);
      assert ElementTexts(v.items)[1..] == ElementTexts(v.items[1..]);
    }
  }

  function ElementTexts(items: seq<Value>): seq<string> {
    seq(|items|, i requires 0 <= i < |items| => if items[i] == Null then "" else JsString(items[i]))
  }

  lemma {:induction false} JoinedText(items: seq<Value>)
    ensures JoinTail(items) == if items == [] then "" else "," + Commas(ElementTexts(items))
  {
    if items != [] {
      JoinedText(items[1..]);
      assert ElementTexts(items)[1..] == ElementTexts(items[1..]);
    }
  }

  /** `Object.entries`. */
  function Entries(v: Value): seq<Field>
    requires IsContainer(v)
  {
    match v
    case Obj(fields) => fields
    case Arr(items) => seq(|items|, i requires 0 <= i < |items| => Field(Decimal(i), items[i]))
  }

  predicate KeptKey(k: string) { !Bookkeeping(k) && k != PROTO }

  function Kept(entries: seq<Field>): seq<Field> {
    if entries == [] then []
    else (if KeptKey(entries[0].key) then [Field(entries[0].key, Str(JsString(entries[0].val)))] else [])
         + Kept(entries[1..])
  }

  function CleanAnnotations(meta: seq<Field>): seq<Field> {
    match Lookup(meta, "annotations")
    case Some(a) => if IsContainer(a) then Assign(meta, "annotations", Obj(Kept(Entries(a)))) else meta
    case None => meta
  }

  function RemoveVolatile(meta: seq<Field>): seq<Field> {
    Remove(Remove(Remove(Remove(meta, "creationTimestamp"), "generation"), "resourceVersion"), "uid")
  }

  function CleanMetadata(fields: seq<Field>, exclude: bool): seq<Field> {
    match Lookup(fields, "metadata")
    case Some(Obj(meta)) =>
      Assign(fields, "metadata", Obj(RemoveVolatile(if exclude then CleanAnnotations(meta) else meta)))
    case _ => fields
  }

  /** The edited clone. */
  function Clean(template: Value, exclude: bool): Value {
    match template
    case Obj(fields) => Obj(Remove(CleanMetadata(fields, exclude), "status"))
    case _ => template
  }

  function CanonicalTemplate(template: Value, exclude: bool := true): Value {
    if Truthy(template) then CanonicalizeValue(Clean(template, exclude)) else Obj([])
  }

  function TemplateHash(h: Hash, template: Value, exclude: bool := true): string {
    h(Print(CanonicalTemplate(template, exclude)))
  }

  lemma {:induction false} KeptAppend(entries: seq<Field>, e: Field)
    ensures Kept(entries + [e]) == Kept(entries) + (if KeptKey(e.key) then [Field(e.key, Str(JsString(e.val)))] else [])
  {
    if entries == [] {
      assert entries + [e] == [e];
    } else {
      KeptAppend(entries[1..], e);
      assert (entries + [e])[1..] == entries[1..] + [e];
    }
  }

  /** The editing of a clone, step by step as the source does it. */
  method CanonicalizePodTemplateSpec(template: Value, exclude: bool) returns (r: Value)
    ensures r == CanonicalTemplate(template, exclude)
  {
    if !Truthy(template) {
      return Obj([]);
    }
    var cloned := template;
    if cloned.Obj? {
      var metadata := Lookup(cloned.fields, "metadata");
      if metadata.Some? && metadata.value.Obj? {
        var meta := metadata.value.fields;
        var annotations := Lookup(meta, "annotations");
        if annotations.Some? && IsContainer(annotations.value) && exclude {
          var entries := Entries(annotations.value);
          var filtered: seq<Field> := [];
          for i := 0 to |entries|
            invariant filtered == Kept(entries[..i])
          {
            var e := entries[i];
            KeptAppend(entries[..i], e);
            assert entries[..i] + [e] == entries[..i + 1];
            if KeptKey(e.key) {
              filtered := filtered + [Field(e.key, Str(JsString(e.val)))];
            }
          }
          assert entries[..|entries|] == entries;
          meta := Assign(meta, "annotations", Obj(filtered));
        }
        meta := Remove(meta, "creationTimestamp");
        meta := Remove(meta, "generation");
        meta := Remove(meta, "resourceVersion");
        meta := Remove(meta, "uid");
        cloned := Obj(Assign(cloned.fields, "metadata", Obj(meta)));
      }
      cloned := Obj(Remove(cloned.fields, "status"));
    }
    r := CanonicalizeValue(cloned);
  }

  // ---------------------------------------------------------------- member access

  /** Filtering keeps names apart and admits no bookkeeping name. */
  lemma {:induction false} KeptApart(entries: seq<Field>, k: string)
    requires forall j :: 0 <= j < |entries| ==> entries[j].key != k
    ensures forall j :: 0 <= j < |Kept(entries)| ==> Kept(entries)[j].key != k
  {
    if entries != [] {
      KeptApart(entries[1..], k);
    }
  }

  lemma {:induction false} KeptValid(entries: seq<Field>)
    requires UniqueKeys(entries)
    ensures Valid(Obj(Kept(entries)))
  {
    if entries != [] {
      KeptValid(entries[1..]);
      KeptApart(entries[1..], entries[0].key);
    }
  }

  lemma {:induction false} KeptMembers(entries: seq<Field>, k: string)
    requires UniqueKeys(entries)
    ensures Lookup(Kept(entries), k) ==
              if KeptKey(k) && Lookup(entries, k).Some? then Some(Str(JsString(Lookup(entries, k).value))) else None
  {
    if entries != [] {
      var rest := Kept(entries[1..]);
      KeptMembers(entries[1..], k);
      if KeptKey(entries[0].key) {
        assert Kept(entries)[1..] == rest;
      } else {
        assert Kept(entries) == rest;
        KeptApart(entries[1..], entries[0].key);
        var i := LookupSome(rest, k);
      }
    }
  }

  lemma EntriesUnique(v: Value)
    requires Valid(v) && IsContainer(v)
    ensures UniqueKeys(Entries(v))
  {
    if v.Arr? {
      forall i, j | 0 <= i < j < |v.items| ensures Decimal(i) != Decimal(j) {
        if Decimal(i) == Decimal(j) { DecimalInjective(i, j); }
      }
    }
  }

  // ---------------------------------------------------------------- agreement of templates

  /** Both absent, or present and equal up to key order. */
  ghost predicate Agree(a: Option<Value>, b: Option<Value>) {
    match (a, b)
    case (None, None) => true
    case (Some(x), Some(y)) => SameData(x, y)
    case _ => false
  }

  /** The text `String(v)` of an annotation, if it is there and kept. */
  function AnnotationText(annotations: Value, k: string): Option<string>
    requires IsContainer(annotations)
  {
    match Lookup(Entries(annotations), k)
    case Some(v) => if KeptKey(k) then Some(JsString(v)) else None
    case None => None
  }

  ghost predicate AnnotationsAgree(a: Option<Value>, b: Option<Value>) {
    if a.Some? && b.Some? && IsContainer(a.value) && IsContainer(b.value) then
      forall k :: AnnotationText(a.value, k) == AnnotationText(b.value, k)
    else Agree(a, b)
  }

  ghost predicate MetadataMemberAgrees(m: seq<Field>, n: seq<Field>, k: string) {
    if k in VOLATILE then true
    else if k == "annotations" then AnnotationsAgree(Lookup(m, k), Lookup(n, k))
    else Agree(Lookup(m, k), Lookup(n, k))
  }

  ghost predicate MetadataAgree(a: Option<Value>, b: Option<Value>) {
    if a.Some? && b.Some? && a.value.Obj? && b.value.Obj? then
      forall k :: k != PROTO ==> MetadataMemberAgrees(a.value.fields, b.value.fields, k)
    else Agree(a, b)
  }

  ghost predicate TemplateMemberAgrees(f: seq<Field>, g: seq<Field>, k: string) {
    if k == "status" then true
    else if k == "metadata" then MetadataAgree(Lookup(f, k), Lookup(g, k))
    else Agree(Lookup(f, k), Lookup(g, k))
  }

  /** Equal up to key order, volatile fields, `status` and bookkeeping annotations. */
  ghost predicate TemplatesAgree(a: Value, b: Value)
    requires a.Obj? && b.Obj?
  {
    forall k :: k != PROTO ==> TemplateMemberAgrees(a.fields, b.fields, k)
  }

  ghost predicate MembersAgree(f: seq<Field>, g: seq<Field>) {
    forall k :: k != PROTO ==> Agree(Lookup(f, k), Lookup(g, k))
  }

  lemma {:induction false} SameDataMember(f: seq<Field>, g: seq<Field>, k: string)
    requires SameData(Obj(f), Obj(g)) && k != PROTO
    ensures Agree(Lookup(f, k), Lookup(g, k))
  {
    var i := LookupSome(f, k);
    var j := LookupSome(g, k);
  }

  lemma {:induction false} MembersSameData(f: seq<Field>, g: seq<Field>)
    requires UniqueKeys(f) && UniqueKeys(g) && MembersAgree(f, g)
    ensures SameData(Obj(f), Obj(g))
  {
    forall i | 0 <= i < |f| && f[i].key != PROTO
      ensures Lookup(g, f[i].key).Some? && SameData(f[i].val, Lookup(g, f[i].key).value)
    {
      LookupAt(f, i);
      assert Agree(Lookup(f, f[i].key), Lookup(g, f[i].key));
    }
    forall j | 0 <= j < |g| && g[j].key != PROTO ensures Lookup(f, g[j].key).Some? {
      LookupAt(g, j);
      assert Agree(Lookup(f, g[j].key), Lookup(g, g[j].key));
    }
  }

  /** Objects are the same data when their members agree name by name. */
  lemma {:induction false} SameDataByLookup(f: seq<Field>, g: seq<Field>)
    requires UniqueKeys(f) && UniqueKeys(g)
    ensures SameData(Obj(f), Obj(g)) <==> MembersAgree(f, g)
  {
    if SameData(Obj(f), Obj(g)) {
      forall k | k != PROTO { SameDataMember(f, g, k); }
    }
    if MembersAgree(f, g) { MembersSameData(f, g); }
  }

  // ---------------------------------------------------------------- what cleaning keeps

  lemma KeptEntriesValid(a: Value)
    requires Valid(a) && IsContainer(a)
    ensures Valid(Obj(Kept(Entries(a))))
  {
    EntriesUnique(a);
    KeptValid(Entries(a));
  }

  lemma CleanAnnotationsMembers(meta: seq<Field>, k: string)
    requires Valid(Obj(meta))
    ensures Valid(Obj(CleanAnnotations(meta)))
    ensures Lookup(CleanAnnotations(meta), k) ==
              var v := Lookup(meta, k);
              if k == "annotations" && v.Some? && IsContainer(v.value) then Some(Obj(Kept(Entries(v.value)))) else v
  {
    var a := Lookup(meta, "annotations");
    if a.Some? && IsContainer(a.value) {
      var i := LookupSome(meta, "annotations");
      KeptEntriesValid(a.value);
      ValidEdit(meta, "annotations", Obj(Kept(Entries(a.value))));
      AssignMembers(meta, "annotations", Obj(Kept(Entries(a.value))), k);
    }
  }

  lemma RemoveVolatileMembers(meta: seq<Field>, k: string)
    requires Valid(Obj(meta))
    ensures Valid(Obj(RemoveVolatile(meta)))
    ensures Lookup(RemoveVolatile(meta), k) == if k in VOLATILE then None else Lookup(meta, k)
  {
    var m1 := Remove(meta, "creationTimestamp");
    var m2 := Remove(m1, "generation");
    var m3 := Remove(m2, "resourceVersion");
    ValidEdit(meta, "creationTimestamp", Null);
    ValidEdit(m1, "generation", Null);
    ValidEdit(m2, "resourceVersion", Null);
    ValidEdit(m3, "uid", Null);
    RemoveMembers(meta, "creationTimestamp", k);
    RemoveMembers(m1, "generation", k);
    RemoveMembers(m2, "resourceVersion", k);
    RemoveMembers(m3, "uid", k);
  }

  /** Member by member, what the edited clone holds. */
  lemma CleanMembers(fields: seq<Field>, k: string)
    requires Valid(Obj(fields))
    ensures Valid(Clean(Obj(fields), true))
    ensures Lookup(Clean(Obj(fields), true).fields, k) ==
              var v := Lookup(fields, k);
              if k == "status" then None
              else if k == "metadata" && v.Some? && v.value.Obj?
              then Some(Obj(RemoveVolatile(CleanAnnotations(v.value.fields))))
              else v
  {
    var m := Lookup(fields, "metadata");
    if m.Some? && m.value.Obj? {
      var i := LookupSome(fields, "metadata");
      var meta := m.value.fields;
      CleanAnnotationsMembers(meta, k);
      RemoveVolatileMembers(CleanAnnotations(meta), k);
      ValidEdit(fields, "metadata", Obj(RemoveVolatile(CleanAnnotations(meta))));
      AssignMembers(fields, "metadata", Obj(RemoveVolatile(CleanAnnotations(meta))), k);
    }
    ValidEdit(CleanMetadata(fields, true), "status", Null);
    RemoveMembers(CleanMetadata(fields, true), "status", k);
  }

  // ---------------------------------------------------------------- completeness

  lemma KeptAgreeAt(a: Value, b: Value, k: string)
    requires Valid(a) && Valid(b) && IsContainer(a) && IsContainer(b)
    ensures Agree(Lookup(Kept(Entries(a)), k), Lookup(Kept(Entries(b)), k))
            <==> AnnotationText(a, k) == AnnotationText(b, k)
  {
    EntriesUnique(a);
    EntriesUnique(b);
    KeptMembers(Entries(a), k);
    KeptMembers(Entries(b), k);
  }

  lemma {:induction false} KeptSame(a: Value, b: Value)
    requires Valid(a) && Valid(b) && IsContainer(a) && IsContainer(b)
    ensures SameData(Obj(Kept(Entries(a))), Obj(Kept(Entries(b))))
            <==> forall k :: AnnotationText(a, k) == AnnotationText(b, k)
  {
    var f, g := Kept(Entries(a)), Kept(Entries(b));
    forall k ensures Agree(Lookup(f, k), Lookup(g, k)) <==> AnnotationText(a, k) == AnnotationText(b, k) {
      KeptAgreeAt(a, b, k);
    }
    KeptEntriesValid(a);
    KeptEntriesValid(b);
    assert AnnotationText(a, PROTO) == AnnotationText(b, PROTO) == None;
    SameDataByLookup(f, g);
  }

  lemma {:induction false} MetadataAgreeAt(m: seq<Field>, n: seq<Field>, k: string)
    requires Valid(Obj(m)) && Valid(Obj(n))
    ensures Agree(Lookup(RemoveVolatile(CleanAnnotations(m)), k), Lookup(RemoveVolatile(CleanAnnotations(n)), k))
            <==> MetadataMemberAgrees(m, n, k)
  {
    CleanAnnotationsMembers(m, k);
    CleanAnnotationsMembers(n, k);
    RemoveVolatileMembers(CleanAnnotations(m), k);
    RemoveVolatileMembers(CleanAnnotations(n), k);
    var a, b := Lookup(m, k), Lookup(n, k);
    if k == "annotations" && a.Some? && b.Some? && IsContainer(a.value) && IsContainer(b.value) {
      var i := LookupSome(m, k);
      var j := LookupSome(n, k);
      KeptSame(a.value, b.value);
    }
  }

  lemma {:induction false} MetadataSame(m: seq<Field>, n: seq<Field>)
    requires Valid(Obj(m)) && Valid(Obj(n))
    ensures SameData(Obj(RemoveVolatile(CleanAnnotations(m))), Obj(RemoveVolatile(CleanAnnotations(n))))
            <==> MetadataAgree(Some(Obj(m)), Some(Obj(n)))
  {
    var f, g := RemoveVolatile(CleanAnnotations(m)), RemoveVolatile(CleanAnnotations(n));
    forall k ensures Agree(Lookup(f, k), Lookup(g, k)) <==> MetadataMemberAgrees(m, n, k) {
      MetadataAgreeAt(m, n, k);
    }
    CleanedMetadataValid(m);
    CleanedMetadataValid(n);
    SameDataByLookup(f, g);
  }

  lemma CleanedMetadataValid(m: seq<Field>)
    requires Valid(Obj(m))
    ensures UniqueKeys(RemoveVolatile(CleanAnnotations(m)))
  {
    CleanAnnotationsMembers(m, "");
    RemoveVolatileMembers(CleanAnnotations(m), "");
  }

  lemma {:induction false} TemplateAgreeAt(f: seq<Field>, g: seq<Field>, k: string)
    requires Valid(Obj(f)) && Valid(Obj(g))
    ensures Agree(Lookup(Clean(Obj(f), true).fields, k), Lookup(Clean(Obj(g), true).fields, k))
            <==> TemplateMemberAgrees(f, g, k)
  {
    CleanMembers(f, k);
    CleanMembers(g, k);
    var m, n := Lookup(f, k), Lookup(g, k);
    if k == "metadata" && m.Some? && n.Some? && m.value.Obj? && n.value.Obj? {
      var i := LookupSome(f, k);
      var j := LookupSome(g, k);
      MetadataSame(m.value.fields, n.value.fields);
    }
  }

  /** The canonical template is a complete invariant of template agreement. */
  lemma {:induction false} CanonicalTemplateComplete(a: Value, b: Value)
    requires Valid(a) && Valid(b) && a.Obj? && b.Obj?
    ensures CanonicalTemplate(a) == CanonicalTemplate(b) <==> TemplatesAgree(a, b)
  {
    var f, g := Clean(a, true).fields, Clean(b, true).fields;
    forall k ensures Agree(Lookup(f, k), Lookup(g, k)) <==> TemplateMemberAgrees(a.fields, b.fields, k) {
      TemplateAgreeAt(a.fields, b.fields, k);
    }
    CleanMembers(a.fields, "");
    CleanMembers(b.fields, "");
    SameDataByLookup(f, g);
    CanonicalFormComplete(Clean(a, true), Clean(b, true));
  }

  // ---------------------------------------------------------------- the hash

  lemma CanonicalTemplateValid(t: Value)
    requires Valid(t)
    ensures Valid(CanonicalTemplate(t)) && IsCanonical(CanonicalTemplate(t))
  {
    if t.Obj? { CleanMembers(t.fields, ""); }
    CanonicalizeCanonical(Clean(t, true));
  }

  /** Two templates hash alike exactly when their canonical forms are equal. */
  lemma HashComparesForms(h: Hash, a: Value, b: Value)
    requires Injective(h) && Valid(a) && Valid(b)
    ensures TemplateHash(h, a) == TemplateHash(h, b) <==> CanonicalTemplate(a) == CanonicalTemplate(b)
  {
    CanonicalTemplateValid(a);
    CanonicalTemplateValid(b);
    PrintInjective(CanonicalTemplate(a), CanonicalTemplate(b));
  }

  /** And so exactly when the templates agree up to key order and the dropped fields. */
  lemma HashComparesTemplates(h: Hash, a: Value, b: Value)
    requires Injective(h) && Valid(a) && Valid(b) && a.Obj? && b.Obj?
    ensures TemplateHash(h, a) == TemplateHash(h, b) <==> TemplatesAgree(a, b)
  {
    HashComparesForms(h, a, b);
    CanonicalTemplateComplete(a, b);
  }

  // ---------------------------------------------------------------- idempotence

  lemma {:induction false} CanonicalLookup(fields: seq<Field>, k: string)
    requires UniqueKeys(fields) && k != PROTO
    ensures Lookup(SortFields(CanonicalFields(fields)), k) ==
              match Lookup(fields, k) { case Some(v) => Some(CanonicalizeValue(v)) case None => None }
  {
    var c := CanonicalFields(fields);
    var r := SortFields(c);
    CanonicalFieldsMembers(fields);
    SortFieldsSorts(c);
    SortedUniqueKeys(r);
    var i := LookupSome(fields, k);
    var j := LookupSome(r, k);
    if Lookup(fields, k).Some? {
      var x := Field(k, CanonicalizeValue(fields[i].val));
      assert x in c && x in r;
      var m :| 0 <= m < |r| && r[m] == x;
      LookupAt(r, m);
    } else {
      assert forall x :: x in r ==> x.key != k;
    }
  }

  lemma CanonicalSameData(v: Value)
    requires Valid(v)
    ensures SameData(CanonicalizeValue(v), v)
  {
    CanonicalizeCanonical(v);
    CanonicalizeIdempotent(v);
    CanonicalFormComplete(CanonicalizeValue(v), v);
  }

  lemma {:induction false} CanonicalAnnotationText(a: Value, k: string)
    requires Valid(a) && IsContainer(a)
    ensures AnnotationText(CanonicalizeValue(Obj(Kept(Entries(a)))), k) == AnnotationText(a, k)
  {
    EntriesUnique(a);
    KeptMembers(Entries(a), k);
    KeptEntriesValid(a);
    if k != PROTO { CanonicalLookup(Kept(Entries(a)), k); }
  }

  lemma {:induction false} CanonicalMetadataMember(m: seq<Field>, k: string)
    requires Valid(Obj(m)) && k != PROTO
    ensures MetadataMemberAgrees(SortFields(CanonicalFields(RemoveVolatile(CleanAnnotations(m)))), m, k)
  {
    CleanAnnotationsMembers(m, k);
    RemoveVolatileMembers(CleanAnnotations(m), k);
    CanonicalLookup(RemoveVolatile(CleanAnnotations(m)), k);
    var v := Lookup(m, k);
    var i := LookupSome(m, k);
    if v.Some? {
      if k == "annotations" && IsContainer(v.value) {
        forall x { CanonicalAnnotationText(v.value, x); }
      } else {
        CanonicalSameData(v.value);
      }
    }
  }

  lemma {:induction false} CanonicalTemplateMember(f: seq<Field>, k: string)
    requires Valid(Obj(f)) && k != PROTO
    ensures TemplateMemberAgrees(SortFields(CanonicalFields(Clean(Obj(f), true).fields)), f, k)
  {
    CleanMembers(f, k);
    CanonicalLookup(Clean(Obj(f), true).fields, k);
    var v := Lookup(f, k);
    var i := LookupSome(f, k);
    if v.Some? {
      if k == "metadata" && v.value.Obj? {
        forall x | x != PROTO { CanonicalMetadataMember(v.value.fields, x); }
      } else {
        CanonicalSameData(v.value);
      }
    }
  }

  /** A template agrees with its canonical form. */
  lemma CanonicalTemplateAgrees(t: Value)
    requires Valid(t) && t.Obj?
    ensures CanonicalTemplate(t).Obj? && TemplatesAgree(CanonicalTemplate(t), t)
  {
    var c := CanonicalTemplate(t);
    assert c.fields == SortFields(CanonicalFields(Clean(t, true).fields));
    forall k | k != PROTO ensures TemplateMemberAgrees(c.fields, t.fields, k) {
      CanonicalTemplateMember(t.fields, k);
    }
  }

  /** Canonicalizing a canonical template changes nothing. */
  lemma CanonicalTemplateIdempotent(t: Value)
    requires Valid(t)
    ensures CanonicalTemplate(CanonicalTemplate(t)) == CanonicalTemplate(t)
  {
    if t.Obj? {
      CanonicalTemplateValid(t);
      CanonicalTemplateAgrees(t);
      CanonicalTemplateComplete(CanonicalTemplate(t), t);
    } else if t.Arr? {
      CanonicalizeIdempotent(t);
    }
  }

  // ---------------------------------------------------------------- the stamp of a rollback

  /** The shape the Kubernetes types give a pod template. */
  predicate Typed(t: Value) {
    t.Obj?
    && match Lookup(t.fields, "metadata")
       case None => true
       case Some(Null) => true
       case Some(Obj(meta)) =>
         var a := Lookup(meta, "annotations");
         a.None? || a.value.Null? || a.value.Obj?
       case _ => false
  }

  /** Does the template carry a `metadata.annotations` object? */
  predicate HasAnnotations(t: Value)
    requires Typed(t)
  {
    match Lookup(t.fields, "metadata")
    case Some(Obj(meta)) => Lookup(meta, "annotations").Some? && Lookup(meta, "annotations").value.Obj?
    case _ => false
  }

  function Metadata(t: Value): seq<Field>
    requires Typed(t)
  {
    match Lookup(t.fields, "metadata")
    case Some(Obj(meta)) => meta
    case _ => []
  }

  function Annotations(t: Value): seq<Field>
    requires Typed(t)
  {
    match Lookup(Metadata(t), "annotations")
    case Some(Obj(fields)) => fields
    case _ => []
  }

  lemma {:induction false} AssignTwice(fields: seq<Field>, key: string, u: Value, v: Value)
    ensures Assign(Assign(fields, key, u), key, v) == Assign(fields, key, v)
    ensures Lookup(Assign(fields, key, u), key) == Some(u)
  {
    if fields != [] && fields[0].key != key {
      AssignTwice(fields[1..], key, u, v);
      assert Assign(fields, key, u)[1..] == Assign(fields[1..], key, u);
    }
  }

  function WithAnnotations(t: Value, annotations: seq<Field>): (r: Value)
    requires Typed(t)
    ensures Typed(r) && HasAnnotations(r) && Annotations(r) == annotations
  {
    var meta := Assign(Metadata(t), "annotations", Obj(annotations));
    AssignTwice(Metadata(t), "annotations", Obj(annotations), Null);
    AssignTwice(t.fields, "metadata", Obj(meta), Null);
    Obj(Assign(t.fields, "metadata", Obj(meta)))
  }

  /** The empty `metadata` and `annotations` objects created where they are missing. */
  function WithContainers(t: Value): Value
    requires Typed(t)
  {
    WithAnnotations(t, Annotations(t))
  }

  function StampFields(annotations: seq<Field>, time: string, revision: string, hash: string): seq<Field> {
    Assign(Assign(Assign(annotations,
      "ai-sre-commander/rollback-time", Str(time)),
      "ai-sre-commander/target-revision", Str(revision)),
      "ai-sre-commander/template-hash", Str(hash))
  }

  /** The template written by a rollback: three bookkeeping annotations are set. */
  function Stamp(t: Value, time: string, revision: string, hash: string): (r: Value)
    requires Typed(t)
  {
    WithAnnotations(t, StampFields(Annotations(t), time, revision, hash))
  }

  lemma PartsValid(t: Value)
    requires Valid(t) && Typed(t)
    ensures Valid(Obj(Metadata(t))) && Valid(Obj(Annotations(t)))
  {
    var i := LookupSome(t.fields, "metadata");
    var j := LookupSome(Metadata(t), "annotations");
  }

  lemma WithAnnotationsValid(t: Value, a: seq<Field>)
    requires Valid(t) && Typed(t) && Valid(Obj(a))
    ensures Valid(WithAnnotations(t, a))
    ensures Metadata(WithAnnotations(t, a)) == Assign(Metadata(t), "annotations", Obj(a))
  {
    PartsValid(t);
    var m := Assign(Metadata(t), "annotations", Obj(a));
    ValidEdit(Metadata(t), "annotations", Obj(a));
    ValidEdit(t.fields, "metadata", Obj(m));
    AssignTwice(t.fields, "metadata", Obj(m), Null);
  }

  lemma SameDataReflexive(v: Value)
    requires Valid(v)
    ensures SameData(v, v)
  {
    CanonicalFormComplete(v, v);
  }

  lemma LookupReflexive(fields: seq<Field>, k: string)
    requires Valid(Obj(fields))
    ensures Agree(Lookup(fields, k), Lookup(fields, k))
  {
    var i := LookupSome(fields, k);
    if Lookup(fields, k).Some? { SameDataReflexive(fields[i].val); }
  }

  /** Replacing the annotations by ones with the same kept texts is invisible when they were there. */
  lemma {:induction false} WithAnnotationsAgrees(t: Value, a: seq<Field>)
    requires Valid(t) && Typed(t) && HasAnnotations(t) && Valid(Obj(a))
    requires forall k :: AnnotationText(Obj(a), k) == AnnotationText(Obj(Annotations(t)), k)
    ensures TemplatesAgree(WithAnnotations(t, a), t)
  {
    var w := WithAnnotations(t, a);
    PartsValid(t);
    WithAnnotationsValid(t, a);
    forall k | k != PROTO ensures MetadataMemberAgrees(Metadata(w), Metadata(t), k) {
      AssignMembers(Metadata(t), "annotations", Obj(a), k);
      LookupReflexive(Metadata(t), k);
    }
    forall k | k != PROTO ensures TemplateMemberAgrees(w.fields, t.fields, k) {
      AssignMembers(t.fields, "metadata", Obj(Metadata(w)), k);
      LookupReflexive(t.fields, k);
    }
  }

  lemma AssignBookkeeping(a: seq<Field>, key: string, s: string)
    requires Valid(Obj(a)) && Bookkeeping(key)
    ensures Valid(Obj(Assign(a, key, Str(s))))
    ensures forall k :: AnnotationText(Obj(Assign(a, key, Str(s))), k) == AnnotationText(Obj(a), k)
  {
    ValidEdit(a, key, Str(s));
    forall k { AssignMembers(a, key, Str(s), k); }
  }

  lemma StampFieldsText(a: seq<Field>, time: string, revision: string, hash: string)
    requires Valid(Obj(a))
    ensures Valid(Obj(StampFields(a, time, revision, hash)))
    ensures forall k :: AnnotationText(Obj(StampFields(a, time, revision, hash)), k) == AnnotationText(Obj(a), k)
  {
    var a1 := Assign(a, "ai-sre-commander/rollback-time", Str(time));
    var a2 := Assign(a1, "ai-sre-commander/target-revision", Str(revision));
    AssignBookkeeping(a, "ai-sre-commander/rollback-time", time);
    AssignBookkeeping(a1, "ai-sre-commander/target-revision", revision);
    AssignBookkeeping(a2, "ai-sre-commander/template-hash", hash);
  }

  /** A template with an annotations object does not agree with one without. */
  lemma {:induction false} ContainersVisible(w: Value, t: Value)
    requires Typed(w) && Typed(t) && HasAnnotations(w) && !HasAnnotations(t)
    ensures !TemplatesAgree(w, t)
  {
    var m := Lookup(t.fields, "metadata");
    if m.Some? && m.value.Obj? {
      assert !MetadataMemberAgrees(Metadata(w), Metadata(t), "annotations");
    }
    assert !TemplateMemberAgrees(w.fields, t.fields, "metadata");
  }

  /** Stamping is invisible exactly when the template already has an annotations object. */
  lemma {:induction false} StampInvisible(t: Value, time: string, revision: string, hash: string)
    requires Valid(t) && Typed(t)
    ensures Valid(Stamp(t, time, revision, hash))
    ensures CanonicalTemplate(Stamp(t, time, revision, hash)) == CanonicalTemplate(t) <==> HasAnnotations(t)
  {
    var w := Stamp(t, time, revision, hash);
    PartsValid(t);
    StampFieldsText(Annotations(t), time, revision, hash);
    WithAnnotationsValid(t, StampFields(Annotations(t), time, revision, hash));
    CanonicalTemplateComplete(w, t);
    if HasAnnotations(t) {
      WithAnnotationsAgrees(t, StampFields(Annotations(t), time, revision, hash));
    } else {
      ContainersVisible(w, t);
    }
  }

  lemma {:induction false} ContainersAbsorbed(t: Value, a: seq<Field>)
    requires Valid(t) && Typed(t)
    ensures WithAnnotations(WithContainers(t), a) == WithAnnotations(t, a)
  {
    var c := WithContainers(t);
    PartsValid(t);
    WithAnnotationsValid(t, Annotations(t));
    AssignTwice(Metadata(t), "annotations", Obj(Annotations(t)), Obj(a));
    AssignTwice(t.fields, "metadata", Obj(Metadata(c)), Obj(Assign(Metadata(t), "annotations", Obj(a))));
  }

  /** Otherwise the written form is that of the template with the missing containers added, and nothing else. */
  lemma {:induction false} StampAddsContainers(t: Value, time: string, revision: string, hash: string)
    requires Valid(t) && Typed(t)
    ensures CanonicalTemplate(Stamp(t, time, revision, hash)) == CanonicalTemplate(WithContainers(t))
  {
    PartsValid(t);
    WithAnnotationsValid(t, Annotations(t));
    ContainersAbsorbed(t, StampFields(Annotations(t), time, revision, hash));
    StampInvisible(WithContainers(t), time, revision, hash);
  }

  /** Which annotations the hash does not see. */
  predicate Unseen(key: string) {
    "ai-sre-commander/" <= key || "kubectl.kubernetes.io/restartedAt" <= key || key == "__proto__"
  }

  /** The template with one more annotation, or another text for one. */
  function Annotated(t: Value, key: string, text: string): Value
    requires Typed(t)
  {
    WithAnnotations(t, Assign(Annotations(t), key, Str(text)))
  }

  lemma AssignedText(a: seq<Field>, key: string, text: string, k: string)
    requires Valid(Obj(a))
    ensures AnnotationText(Obj(Assign(a, key, Str(text))), k) ==
            if k != key then AnnotationText(Obj(a), k) else if Unseen(key) then None else Some(text)
    ensures Unseen(key) ==> AnnotationText(Obj(a), key) == None
  {
    AssignMembers(a, key, Str(text), k);
  }

  /** Annotations with different kept texts are seen. */
  lemma DifferentTextSeen(t: Value, a: seq<Field>, k: string)
    requires Valid(t) && Typed(t) && HasAnnotations(t)
    requires AnnotationText(Obj(a), k) != AnnotationText(Obj(Annotations(t)), k)
    ensures !TemplatesAgree(WithAnnotations(t, a), t)
  {
    hide AnnotationText;
    var w := WithAnnotations(t, a);
    assert !MetadataMemberAgrees(Metadata(w), Metadata(t), "annotations");
    assert !TemplateMemberAgrees(w.fields, t.fields, "metadata");
  }

  /** Setting one annotation is invisible exactly when its key is unseen or it has that text already. */
  lemma {:induction false} AnnotationInvisibleIff(t: Value, key: string, text: string)
    requires Valid(t) && Typed(t) && HasAnnotations(t)
    ensures CanonicalTemplate(Annotated(t, key, text)) == CanonicalTemplate(t)
            <==> Unseen(key) || AnnotationText(Obj(Annotations(t)), key) == Some(text)
  {
    hide AnnotationText, Unseen, TemplatesAgree, CanonicalTemplate, Valid, WithAnnotations;
    var a := Annotations(t);
    var b := Assign(a, key, Str(text));
    PartsValid(t);
    ValidText(text);
    ValidEdit(a, key, Str(text));
    WithAnnotationsValid(t, b);
    CanonicalTemplateComplete(Annotated(t, key, text), t);
    AssignedText(a, key, text, key);
    if AnnotationText(Obj(b), key) == AnnotationText(Obj(a), key) {
      forall k ensures AnnotationText(Obj(b), k) == AnnotationText(Obj(a), k) {
        AssignedText(a, key, text, k);
      }
      WithAnnotationsAgrees(t, b);
    } else {
      DifferentTextSeen(t, b, key);
    }
  }

  lemma ValidText(s: string)
    ensures Valid(Str(s))
  {
  }

  /** Annotations given as a list count as an object with the positions for keys. */
  lemma ListedAnnotations(items: seq<Value>, i: nat)
    requires Valid(Arr(items)) && i < |items|
    ensures AnnotationText(Arr(items), Decimal(i)) == Some(JsString(items[i]))
  {
    EntriesUnique(Arr(items));
    LookupAt(Entries(Arr(items)), i);
    DecimalDigits(i);
    DecimalNonEmpty(i);
    assert '0' <= Decimal(i)[0] <= '9' && PROTO[0] == '_';
    assert "ai-sre-commander/"[0] == 'a' && "kubectl.kubernetes.io/restartedAt"[0] == 'k';
    assert Entries(Arr(items))[i] == Field(Decimal(i), items[i]);
  }

  /** Without the exclusion all annotations stay; the volatile members and the status are dropped all the same. */
  lemma UnexcludedMembers(fields: seq<Field>, meta: seq<Field>, k: string)
    requires Valid(Obj(fields)) && Lookup(fields, "metadata") == Some(Obj(meta))
    ensures var m := Lookup(Clean(Obj(fields), false).fields, "metadata");
            m.Some? && m.value.Obj?
            && Lookup(m.value.fields, k) == (if k in VOLATILE then None else Lookup(meta, k))
    ensures k != "metadata" ==>
              Lookup(Clean(Obj(fields), false).fields, k) == if k == "status" then None else Lookup(fields, k)
  {
    var i := LookupSome(fields, "metadata");
    RemoveVolatileMembers(meta, k);
    AssignMembers(fields, "metadata", Obj(RemoveVolatile(meta)), k);
    AssignMembers(fields, "metadata", Obj(RemoveVolatile(meta)), "metadata");
    RemoveMembers(CleanMetadata(fields, false), "status", k);
    RemoveMembers(CleanMetadata(fields, false), "status", "metadata");
  }

  /** Only a metadata or an annotations member of another kind than an object or `null` is refused. */
  lemma TypedIff(fields: seq<Field>)
    ensures var metadata := Lookup(fields, "metadata");
            Typed(Obj(fields))
            <==> metadata in {None, Some(Null)}
                 || (metadata.value.Obj?
                     && var annotations := Lookup(metadata.value.fields, "annotations");
                        annotations in {None, Some(Null)} || annotations.value.Obj?)
  {
  }
}
