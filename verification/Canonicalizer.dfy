/**
  Canonical form of a JSON value
  (packages/event-schema/src/template-canonicalizer.ts, canonicalizeValue).

  `CanonicalizeValue` rebuilds every object with sorted keys. The canonical form is idempotent
  and a complete invariant of "equal up to the order of keys at every depth".
*/
module Canonicalizer {
  import opened Wrappers
  import opened Json
  import opened Text

  // ---------------------------------------------------------------- property order

  /** `res["__proto__"] = x` sets the prototype and creates no member. */
  const PROTO := "__proto__"

  predicate DigitsOnly(k: string) {
    forall i :: 0 <= i < |k| ==> '0' <= k[i] <= '9'
  }

  predicate ShortLess(a: string, b: string) {
    |a| < |b| || (|a| == |b| && LexLess(a, b))
  }

  /** A canonical numeral below 2^32 - 1: JavaScript enumerates such keys first, by value. */
  predicate IndexKey(k: string) {
    k != "" && DigitsOnly(k) && (k[0] != '0' || |k| == 1) && ShortLess(k, "4294967295")
  }

  lemma Bound()
    ensures Decimal(4294967295) == "4294967295"
  {
    assert Decimal(4) == "4" && Decimal(42) == "42" && Decimal(429) == "429" && Decimal(4294) == "4294";
    assert Decimal(42949) == "42949" && Decimal(429496) == "429496" && Decimal(4294967) == "4294967";
    assert Decimal(42949672) == "42949672" && Decimal(429496729) == "429496729";
  }

  /** The index keys are the numerals of the numbers below 2^32 - 1 (array indices in ECMA-262, section 6.1.7). */
  lemma {:induction false} IndexKeyIff(k: string)
    ensures IndexKey(k) <==> exists n: nat :: n < 0xFFFF_FFFF && k == Decimal(n)
  {
    Bound();
    if n: nat :| n < 0xFFFF_FFFF && k == Decimal(n) {
      DecimalStart(n);
      DecimalDigits(n);
      DecimalOrder(n, 0xFFFF_FFFF);
    }
    if IndexKey(k) {
      DecimalOfNatural(k);
      var n := NaturalOf(k).value;
      if n > 0xFFFF_FFFF { DecimalOrder(0xFFFF_FFFF, n); }
      NotBoth(k, "4294967295");
    }
  }

  lemma NotBoth(a: string, b: string)
    ensures !(ShortLess(a, b) && ShortLess(b, a)) && !ShortLess(a, a)
  {
    LexIrreflexive(a);
    if LexLess(a, b) && LexLess(b, a) { LexTransitive(a, b, a); }
  }

  /** Order in which an object built by assignment in `sort()` order enumerates its keys. */
  predicate KeyLess(a: string, b: string) {
    if IndexKey(a) then !IndexKey(b) || ShortLess(a, b)
    else !IndexKey(b) && LexLess(a, b)
  }

  lemma KeyOrder(a: string, b: string, c: string)
    ensures a == b || KeyLess(a, b) || KeyLess(b, a)
    ensures !KeyLess(a, a)
    ensures KeyLess(a, b) && KeyLess(b, c) ==> KeyLess(a, c)
  {
    LexTotal(a, b);
    LexIrreflexive(a);
    if LexLess(a, b) && LexLess(b, c) { LexTransitive(a, b, c); }
  }

  predicate Sorted(fields: seq<Field>) {
    forall i, j :: 0 <= i < j < |fields| ==> KeyLess(fields[i].key, fields[j].key)
  }

  function Insert(f: Field, fields: seq<Field>): seq<Field> {
    if fields == [] then [f]
    else if KeyLess(f.key, fields[0].key) then [f] + fields
    else [fields[0]] + Insert(f, fields[1..])
  }

  function SortFields(fields: seq<Field>): seq<Field> {
    if fields == [] then [] else Insert(fields[0], SortFields(fields[1..]))
  }

  // ---------------------------------------------------------------- canonicalizeValue

  function CanonicalizeValue(v: Value): Value {
    match v
    case Arr(items) => Arr(CanonicalItems(items))
    case Obj(fields) => Obj(SortFields(CanonicalFields(fields)))
    case _ => v
  }

  function CanonicalItems(items: seq<Value>): (r: seq<Value>)
    ensures |r| == |items|
    ensures forall i :: 0 <= i < |items| ==> r[i] == CanonicalizeValue(items[i])
  {
    if items == [] then [] else [CanonicalizeValue(items[0])] + CanonicalItems(items[1..])
  }

  function CanonicalFields(fields: seq<Field>): seq<Field> {
    if fields == [] then []
    else
      var rest := CanonicalFields(fields[1..]);
      if fields[0].key == PROTO then rest
      else [Field(fields[0].key, CanonicalizeValue(fields[0].val))] + rest
  }

  // ---------------------------------------------------------------- equality up to key order

  /** Reference notion: equal as trees in which the members of an object form a map. */
  ghost predicate SameData(a: Value, b: Value)
    decreases a
  {
    match a
    case Arr(items) =>
      b.Arr? && |items| == |b.items|
      && forall i :: 0 <= i < |items| ==> SameData(items[i], b.items[i])
    case Obj(fields) =>
      b.Obj?
      && (forall i :: 0 <= i < |fields| && fields[i].key != PROTO ==>
            var y := Lookup(b.fields, fields[i].key);
            y.Some? && SameData(fields[i].val, y.value))
      && (forall j :: 0 <= j < |b.fields| && b.fields[j].key != PROTO ==>
            Lookup(fields, b.fields[j].key).Some?)
    case _ => a == b
  }

  // ---------------------------------------------------------------- sorting lemmas

  lemma {:induction false} InsertSorted(f: Field, fields: seq<Field>)
    requires Sorted(fields)
    requires forall i :: 0 <= i < |fields| ==> fields[i].key != f.key
    ensures Sorted(Insert(f, fields))
    ensures forall g :: g in Insert(f, fields) <==> g == f || g in fields
  {
    if fields != [] {
      KeyOrder(f.key, fields[0].key, "");
      if KeyLess(f.key, fields[0].key) {
        forall j | 0 <= j < |fields| ensures KeyLess(f.key, fields[j].key) {
          KeyOrder(f.key, fields[0].key, fields[j].key);
        }
      } else {
        var rest := Insert(f, fields[1..]);
        InsertSorted(f, fields[1..]);
        forall j | 0 <= j < |rest| ensures KeyLess(fields[0].key, rest[j].key) {
          assert rest[j] in rest;
        }
      }
    }
  }

  lemma {:induction false} SortFieldsSorts(fields: seq<Field>)
    requires UniqueKeys(fields)
    ensures Sorted(SortFields(fields))
    ensures forall g :: g in SortFields(fields) <==> g in fields
  {
    if fields != [] {
      SortFieldsSorts(fields[1..]);
      var rest := SortFields(fields[1..]);
      forall i | 0 <= i < |rest| ensures rest[i].key != fields[0].key {
        assert rest[i] in fields[1..];
      }
      InsertSorted(fields[0], rest);
    }
  }

  /** A strictly sorted list is determined by its members. */
  lemma {:induction false} SortedUnique(p: seq<Field>, q: seq<Field>)
    requires Sorted(p) && Sorted(q)
    requires forall g :: g in p <==> g in q
    ensures p == q
  {
    if q != [] {
      assert q[0] in p;
    }
    if p != [] {
      assert p[0] in q;
      var i :| 0 <= i < |q| && q[i] == p[0];
      assert q[0] in p;
      var j :| 0 <= j < |p| && p[j] == q[0];
      KeyOrder(p[0].key, q[0].key, p[0].key);
      assert p[0] == q[0];
      forall g ensures g in p[1..] <==> g in q[1..] {
        KeyOrder(p[0].key, p[0].key, "");
        assert g in p[1..] ==> g in p && g != p[0];
        assert g in q[1..] ==> g in q && g != q[0];
      }
      SortedUnique(p[1..], q[1..]);
    }
  }

  lemma SortedUniqueKeys(fields: seq<Field>)
    requires Sorted(fields)
    ensures UniqueKeys(fields)
  {
    forall i, j | 0 <= i < j < |fields| ensures fields[i].key != fields[j].key {
      KeyOrder(fields[i].key, fields[i].key, "");
    }
  }

  // ---------------------------------------------------------------- canonical fields

  /** The canonical fields are exactly the canonicalized members other than `__proto__`. */
  lemma {:induction false} CanonicalFieldsMembers(fields: seq<Field>)
    ensures forall g :: g in CanonicalFields(fields) <==>
              exists i :: 0 <= i < |fields| && fields[i].key != PROTO
                  && g == Field(fields[i].key, CanonicalizeValue(fields[i].val))
    ensures UniqueKeys(fields) ==> UniqueKeys(CanonicalFields(fields))
  {
    if fields != [] {
      var rest := CanonicalFields(fields[1..]);
      CanonicalFieldsMembers(fields[1..]);
      forall g ensures g in CanonicalFields(fields) <==>
              exists i :: 0 <= i < |fields| && fields[i].key != PROTO
                  && g == Field(fields[i].key, CanonicalizeValue(fields[i].val))
      {
        if g in rest {
          var i :| 0 <= i < |fields[1..]| && fields[1..][i].key != PROTO
                   && g == Field(fields[1..][i].key, CanonicalizeValue(fields[1..][i].val));
          assert fields[i + 1] == fields[1..][i];
        }
        if i :| 0 <= i < |fields| && fields[i].key != PROTO
                && g == Field(fields[i].key, CanonicalizeValue(fields[i].val)) {
          if i > 0 { assert fields[1..][i - 1] == fields[i]; }
        }
      }
      if UniqueKeys(fields) {
        forall j | 0 <= j < |rest| ensures rest[j].key != fields[0].key {
          assert rest[j] in rest;
        }
      }
    }
  }

  // ---------------------------------------------------------------- canonical values

  /** Sorted members and no `__proto__` member, at every depth. */
  ghost predicate IsCanonical(v: Value) {
    match v
    case Arr(items) => forall i :: 0 <= i < |items| ==> IsCanonical(items[i])
    case Obj(fields) =>
      Sorted(fields)
      && forall i :: 0 <= i < |fields| ==> fields[i].key != PROTO && IsCanonical(fields[i].val)
    case _ => true
  }

  lemma {:induction false} CanonicalizeCanonical(v: Value)
    requires Valid(v)
    ensures IsCanonical(CanonicalizeValue(v)) && Valid(CanonicalizeValue(v))
  {
    match v
    case Arr(items) =>
      forall i | 0 <= i < |items| { CanonicalizeCanonical(items[i]); }
    case Obj(fields) =>
      var c := CanonicalFields(fields);
      var r := SortFields(c);
      CanonicalFieldsMembers(fields);
      SortFieldsSorts(c);
      SortedUniqueKeys(r);
      forall k | 0 <= k < |r| ensures r[k].key != PROTO && IsCanonical(r[k].val) && Valid(r[k].val) {
        assert r[k] in c;
        var i :| 0 <= i < |fields| && fields[i].key != PROTO
                 && r[k] == Field(fields[i].key, CanonicalizeValue(fields[i].val));
        CanonicalizeCanonical(fields[i].val);
      }
    case _ =>
  }

  lemma {:induction false} SortedFixed(fields: seq<Field>)
    requires Sorted(fields)
    ensures SortFields(fields) == fields
  {
    SortedUniqueKeys(fields);
    SortFieldsSorts(fields);
    SortedUnique(SortFields(fields), fields);
  }

  lemma {:induction false} CanonicalFieldsFixed(fields: seq<Field>)
    requires forall i :: 0 <= i < |fields| ==>
               fields[i].key != PROTO && CanonicalizeValue(fields[i].val) == fields[i].val
    ensures CanonicalFields(fields) == fields
  {
    if fields != [] {
      CanonicalFieldsFixed(fields[1..]);
    }
  }

  /** A canonical value is its own canonical form. */
  lemma {:induction false} CanonicalFixed(v: Value)
    requires IsCanonical(v)
    ensures CanonicalizeValue(v) == v
  {
    match v
    case Arr(items) =>
      forall i | 0 <= i < |items| { CanonicalFixed(items[i]); }
      assert CanonicalItems(items) == items;
    case Obj(fields) =>
      forall i | 0 <= i < |fields| { CanonicalFixed(fields[i].val); }
      CanonicalFieldsFixed(fields);
      SortedFixed(fields);
    case _ =>
  }

  lemma CanonicalizeIdempotent(v: Value)
    requires Valid(v)
    ensures CanonicalizeValue(CanonicalizeValue(v)) == CanonicalizeValue(v)
  {
    CanonicalizeCanonical(v);
    CanonicalFixed(CanonicalizeValue(v));
  }

  // ---------------------------------------------------------------- completeness

  /** Objects whose members correspond one to one have the same sorted canonical fields. */
  lemma {:induction false} MatchingFields(f: seq<Field>, g: seq<Field>)
    requires UniqueKeys(f) && UniqueKeys(g)
    requires forall i :: 0 <= i < |f| && f[i].key != PROTO ==>
               var y := Lookup(g, f[i].key);
               y.Some? && CanonicalizeValue(y.value) == CanonicalizeValue(f[i].val)
    requires forall j :: 0 <= j < |g| && g[j].key != PROTO ==> Lookup(f, g[j].key).Some?
    ensures SortFields(CanonicalFields(f)) == SortFields(CanonicalFields(g))
  {
    var cf, cg := CanonicalFields(f), CanonicalFields(g);
    CanonicalFieldsMembers(f);
    CanonicalFieldsMembers(g);
    forall x | x in cf ensures x in cg {
      var i :| 0 <= i < |f| && f[i].key != PROTO && x == Field(f[i].key, CanonicalizeValue(f[i].val));
      var j := LookupSome(g, f[i].key);
    }
    forall x | x in cg ensures x in cf {
      var j :| 0 <= j < |g| && g[j].key != PROTO && x == Field(g[j].key, CanonicalizeValue(g[j].val));
      var i := LookupSome(f, g[j].key);
      LookupAt(g, j);
    }
    SortFieldsSorts(cf);
    SortFieldsSorts(cg);
    SortedUnique(SortFields(cf), SortFields(cg));
  }

  /** Values that agree up to key order have the same canonical form. */
  lemma {:induction false} SameDataSameForm(a: Value, b: Value)
    requires Valid(a) && Valid(b) && SameData(a, b)
    ensures CanonicalizeValue(a) == CanonicalizeValue(b)
    decreases a
  {
    match a
    case Arr(items) =>
      forall i | 0 <= i < |items| { SameDataSameForm(items[i], b.items[i]); }
      assert CanonicalItems(items) == CanonicalItems(b.items);
    case Obj(fields) =>
      forall i | 0 <= i < |fields| && fields[i].key != PROTO
        ensures var y := Lookup(b.fields, fields[i].key);
                y.Some? && CanonicalizeValue(y.value) == CanonicalizeValue(fields[i].val)
      {
        var j := LookupSome(b.fields, fields[i].key);
        SameDataSameForm(fields[i].val, b.fields[j].val);
      }
      MatchingFields(fields, b.fields);
    case _ =>
  }

  /** Values with the same canonical form agree up to key order. */
  lemma {:induction false} SameFormSameData(a: Value, b: Value)
    requires Valid(a) && Valid(b) && CanonicalizeValue(a) == CanonicalizeValue(b)
    ensures SameData(a, b)
    decreases a
  {
    match a
    case Arr(items) =>
      forall i | 0 <= i < |items| ensures SameData(items[i], b.items[i]) {
        assert CanonicalItems(items)[i] == CanonicalItems(b.items)[i];
        SameFormSameData(items[i], b.items[i]);
      }
    case Obj(fields) =>
      var ca, cb := CanonicalFields(fields), CanonicalFields(b.fields);
      CanonicalFieldsMembers(fields);
      CanonicalFieldsMembers(b.fields);
      SortFieldsSorts(ca);
      SortFieldsSorts(cb);
      forall i | 0 <= i < |fields| && fields[i].key != PROTO
        ensures var y := Lookup(b.fields, fields[i].key); y.Some? && SameData(fields[i].val, y.value)
      {
        var x := Field(fields[i].key, CanonicalizeValue(fields[i].val));
        assert x in SortFields(ca) && x in cb;
        var j :| 0 <= j < |b.fields| && b.fields[j].key != PROTO
                 && x == Field(b.fields[j].key, CanonicalizeValue(b.fields[j].val));
        SameFormSameData(fields[i].val, b.fields[j].val);
        LookupAt(b.fields, j);
      }
      forall j | 0 <= j < |b.fields| && b.fields[j].key != PROTO ensures Lookup(fields, b.fields[j].key).Some? {
        var x := Field(b.fields[j].key, CanonicalizeValue(b.fields[j].val));
        assert x in SortFields(cb) && x in ca;
        var i :| 0 <= i < |fields| && fields[i].key != PROTO
                 && x == Field(fields[i].key, CanonicalizeValue(fields[i].val));
        LookupAt(fields, i);
      }
    case _ =>
  }

  /** The canonical form is a complete invariant of equality up to key order; `__proto__` members do not take part. */
  lemma CanonicalFormComplete(a: Value, b: Value)
    requires Valid(a) && Valid(b)
    ensures CanonicalizeValue(a) == CanonicalizeValue(b) <==> SameData(a, b)
  {
    if SameData(a, b) { SameDataSameForm(a, b); }
    if CanonicalizeValue(a) == CanonicalizeValue(b) { SameFormSameData(a, b); }
  }

  // ---------------------------------------------------------------- when the keys stay in sort() order

  /** Every object lists its members in the order of `sort()`. */
  ghost predicate LexSorted(v: Value) {
    match v
    case Arr(items) => forall i :: 0 <= i < |items| ==> LexSorted(items[i])
    case Obj(fields) =>
      (forall i, j :: 0 <= i < j < |fields| ==> LexLess(fields[i].key, fields[j].key))
      && forall i :: 0 <= i < |fields| ==> LexSorted(fields[i].val)
    case _ => true
  }

  /** In every object the order of enumeration agrees with that of `sort()`; `__proto__` members are dropped anyway. */
  ghost predicate OrdersAgree(v: Value) {
    match v
    case Arr(items) => forall i :: 0 <= i < |items| ==> OrdersAgree(items[i])
    case Obj(fields) =>
      NamesAgree(fields)
      && forall i :: 0 <= i < |fields| && fields[i].key != PROTO ==> OrdersAgree(fields[i].val)
    case _ => true
  }

  ghost predicate NamesAgree(fields: seq<Field>) {
    forall i, j :: 0 <= i < |fields| && 0 <= j < |fields| && fields[i].key != PROTO && fields[j].key != PROTO ==>
      KeyLess(fields[i].key, fields[j].key) ==> LexLess(fields[i].key, fields[j].key)
  }

  /** Where a member of an object is found in its canonical form. */
  lemma {:induction false} CanonicalPlace(fields: seq<Field>, i: int) returns (m: int)
    requires UniqueKeys(fields) && 0 <= i < |fields| && fields[i].key != PROTO
    ensures var r := SortFields(CanonicalFields(fields));
            0 <= m < |r| && r[m] == Field(fields[i].key, CanonicalizeValue(fields[i].val))
  {
    var c := CanonicalFields(fields);
    CanonicalFieldsMembers(fields);
    SortFieldsSorts(c);
    var x := Field(fields[i].key, CanonicalizeValue(fields[i].val));
    assert x in c && x in SortFields(c);
    m :| 0 <= m < |SortFields(c)| && SortFields(c)[m] == x;
  }

  /** And where a member of the canonical form comes from. */
  lemma {:induction false} CanonicalOrigin(fields: seq<Field>, m: int) returns (i: int)
    requires UniqueKeys(fields) && 0 <= m < |SortFields(CanonicalFields(fields))|
    ensures 0 <= i < |fields| && fields[i].key != PROTO
    ensures SortFields(CanonicalFields(fields))[m] == Field(fields[i].key, CanonicalizeValue(fields[i].val))
  {
    var c := CanonicalFields(fields);
    CanonicalFieldsMembers(fields);
    SortFieldsSorts(c);
    var x := SortFields(c)[m];
    assert x in SortFields(c) && x in c;
    i :| 0 <= i < |fields| && fields[i].key != PROTO && x == Field(fields[i].key, CanonicalizeValue(fields[i].val));
  }

  lemma {:induction false} NamesInOrderIff(fields: seq<Field>)
    requires UniqueKeys(fields)
    ensures var r := SortFields(CanonicalFields(fields));
            (forall i, j :: 0 <= i < j < |r| ==> LexLess(r[i].key, r[j].key)) <==> NamesAgree(fields)
  {
    hide KeyLess, LexLess;
    var r := SortFields(CanonicalFields(fields));
    CanonicalFieldsMembers(fields);
    SortFieldsSorts(CanonicalFields(fields));
    if forall i, j :: 0 <= i < j < |r| ==> LexLess(r[i].key, r[j].key) {
      forall i, j | 0 <= i < |fields| && 0 <= j < |fields| && fields[i].key != PROTO && fields[j].key != PROTO
                    && KeyLess(fields[i].key, fields[j].key)
        ensures LexLess(fields[i].key, fields[j].key)
      {
        var m := CanonicalPlace(fields, i);
        var n := CanonicalPlace(fields, j);
        KeyOrder(fields[i].key, fields[j].key, fields[i].key);
      }
    }
    if NamesAgree(fields) {
      forall m, n | 0 <= m < n < |r| ensures LexLess(r[m].key, r[n].key) {
        var i := CanonicalOrigin(fields, m);
        var j := CanonicalOrigin(fields, n);
        assert KeyLess(r[m].key, r[n].key);
      }
    }
  }

  /**
    The canonical form is in sort() order at every depth exactly when the two orders agree on the names of every
    object.
   */
  lemma {:induction false} SortOrderIff(v: Value)
    requires Valid(v)
    ensures LexSorted(CanonicalizeValue(v)) <==> OrdersAgree(v)
  {
    match v
    case Arr(items) =>
      var c := CanonicalItems(items);
      forall i | 0 <= i < |items| ensures LexSorted(c[i]) <==> OrdersAgree(items[i]) { SortOrderIff(items[i]); }
    case Obj(fields) =>
      var r := SortFields(CanonicalFields(fields));
      NamesInOrderIff(fields);
      forall i | 0 <= i < |fields| && fields[i].key != PROTO
        ensures LexSorted(CanonicalizeValue(fields[i].val)) <==> OrdersAgree(fields[i].val)
      {
        SortOrderIff(fields[i].val);
      }
      if forall m :: 0 <= m < |r| ==> LexSorted(r[m].val) {
        forall i | 0 <= i < |fields| && fields[i].key != PROTO ensures OrdersAgree(fields[i].val) {
          var m := CanonicalPlace(fields, i);
        }
      }
      if forall i :: 0 <= i < |fields| && fields[i].key != PROTO ==> OrdersAgree(fields[i].val) {
        forall m | 0 <= m < |r| ensures LexSorted(r[m].val) {
          var i := CanonicalOrigin(fields, m);
        }
      }
    case _ =>
  }

  lemma CanonicalPair(f: Field, g: Field)
    requires f.key != PROTO && g.key != PROTO && !KeyLess(f.key, g.key)
    ensures CanonicalizeValue(Obj([f, g]))
            == Obj([Field(g.key, CanonicalizeValue(g.val)), Field(f.key, CanonicalizeValue(f.val))])
  {
    hide KeyLess;
    var cf, cg := Field(f.key, CanonicalizeValue(f.val)), Field(g.key, CanonicalizeValue(g.val));
    assert [g][1..] == [] && [f, g][1..] == [g];
    assert CanonicalFields([g]) == [cg];
    assert CanonicalFields([f, g]) == [cf, cg];
    assert [cg][1..] == [] && [cf, cg][1..] == [cg];
    assert SortFields([cg]) == [cg];
    assert Insert(cf, []) == [cf];
    assert SortFields([cf, cg]) == Insert(cf, [cg]) == [cg, cf];
  }

  /** `{"10": a, "9": b}` comes out as `{"9": b, "10": a}`, against sort() order, and `{"__proto__": a}` as `{}`. */
  lemma {:induction false} SortOrderFails(a: Value, b: Value)
    requires Valid(a) && Valid(b)
    ensures CanonicalizeValue(Obj([Field("10", a), Field("9", b)]))
            == Obj([Field("9", CanonicalizeValue(b)), Field("10", CanonicalizeValue(a))])
    ensures LexLess("10", "9") && !LexSorted(CanonicalizeValue(Obj([Field("10", a), Field("9", b)])))
    ensures CanonicalizeValue(Obj([Field(PROTO, a)])) == Obj([])
  {
    var f, g := Field("10", a), Field("9", b);
    assert PROTO[0] == '_' && f.key[0] == '1' && g.key[0] == '9';
    assert IndexKey("9") && IndexKey("10") && !KeyLess("10", "9");
    CanonicalPair(f, g);
    var r := CanonicalizeValue(Obj([f, g])).fields;
    assert !LexLess(r[0].key, r[1].key);
    var p := [Field(PROTO, a)];
    assert p[1..] == [] && CanonicalFields(p) == CanonicalFields([]) == [];
    assert SortFields(CanonicalFields(p)) == [];
  }
}
