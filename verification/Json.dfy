/**
  JSON values and the text `JSON.stringify` prints for them (RFC 8259, sections 3 to 7).

  Every hash of the system is taken over such a text, so the result that carries the
  hash-based checks is `PrintInjective`: two values print alike only if they are equal.
  It follows from `PrintCancel`, which says that a printed value can be split off the
  front of a longer text in one way only.

  A string is a sequence of Unicode scalar values. A number is the token the printer
  writes for it, which is unique for each finite double.
*/
module Json {
  import opened Wrappers

  datatype Value =
    | Null
    | Bool(b: bool)
    | Num(token: string)
    | Str(s: string)
    | Arr(items: seq<Value>)
    | Obj(fields: seq<Field>)

  datatype Field = Field(key: string, val: Value)

  // ---------------------------------------------------------------- members of an object

  /** The value of the first member called `key`. */
  function Lookup(fields: seq<Field>, key: string): Option<Value> {
    if fields == [] then None
    else if fields[0].key == key then Some(fields[0].val)
    else Lookup(fields[1..], key)
  }

  function Remove(fields: seq<Field>, key: string): seq<Field> {
    if fields == [] then []
    else if fields[0].key == key then Remove(fields[1..], key)
    else [fields[0]] + Remove(fields[1..], key)
  }

  /** Assignment `o[key] = val`: in place when the member exists, otherwise appended. */
  function Assign(fields: seq<Field>, key: string, val: Value): seq<Field> {
    if fields == [] then [Field(key, val)]
    else if fields[0].key == key then [Field(key, val)] + fields[1..]
    else [fields[0]] + Assign(fields[1..], key, val)
  }

  predicate UniqueKeys(fields: seq<Field>) {
    forall i, j :: 0 <= i < j < |fields| ==> fields[i].key != fields[j].key
  }

  lemma {:induction false} LookupAt(fields: seq<Field>, i: int)
    requires UniqueKeys(fields) && 0 <= i < |fields|
    ensures Lookup(fields, fields[i].key) == Some(fields[i].val)
  {
    if i > 0 {
      assert fields[0].key != fields[i].key;
      LookupAt(fields[1..], i - 1);
    }
  }

  lemma {:induction false} LookupSome(fields: seq<Field>, k: string) returns (i: int)
    ensures Lookup(fields, k).Some? ==> 0 <= i < |fields| && fields[i] == Field(k, Lookup(fields, k).value)
    ensures Lookup(fields, k).None? ==> forall j :: 0 <= j < |fields| ==> fields[j].key != k
  {
    i := 0;
    if fields != [] && fields[0].key != k {
      var j := LookupSome(fields[1..], k);
      i := j + 1;
    }
  }

  /** What JavaScript guarantees of a JSON value: distinct member names, well-formed numbers. */
  predicate Valid(v: Value) {
    match v
    case Num(t) => ValidNumber(t)
    case Arr(items) => forall i :: 0 <= i < |items| ==> Valid(items[i])
    case Obj(fields) => UniqueKeys(fields) && forall i :: 0 <= i < |fields| ==> Valid(fields[i].val)
    case _ => true
  }

  predicate NumberChar(c: char) {
    '0' <= c <= '9' || c == '-' || c == '+' || c == '.' || c == 'e' || c == 'E'
  }

  predicate ValidNumber(t: string) {
    t != "" && forall i :: 0 <= i < |t| ==> NumberChar(t[i])
  }

  lemma {:induction false} RemoveMembers(fields: seq<Field>, key: string, k: string)
    requires UniqueKeys(fields)
    ensures Lookup(Remove(fields, key), k) == if k == key then None else Lookup(fields, k)
    ensures UniqueKeys(Remove(fields, key))
    ensures forall g :: g in Remove(fields, key) ==> g in fields
  {
    if fields != [] {
      RemoveMembers(fields[1..], key, k);
      var rest := Remove(fields[1..], key);
      forall j | 0 <= j < |rest| ensures rest[j].key != fields[0].key {
        assert rest[j] in rest;
      }
    }
  }

  lemma {:induction false} AssignMembers(fields: seq<Field>, key: string, v: Value, k: string)
    requires UniqueKeys(fields)
    ensures Lookup(Assign(fields, key, v), k) == if k == key then Some(v) else Lookup(fields, k)
    ensures UniqueKeys(Assign(fields, key, v))
    ensures forall g :: g in Assign(fields, key, v) ==> g in fields || g == Field(key, v)
  {
    if fields != [] {
      AssignMembers(fields[1..], key, v, k);
      var rest := Assign(fields[1..], key, v);
      if fields[0].key != key {
        forall j | 0 <= j < |rest| ensures rest[j].key != fields[0].key {
          assert rest[j] in rest;
        }
      }
    }
  }

  /** Removing or assigning members keeps an object valid. */
  lemma ValidEdit(fields: seq<Field>, key: string, v: Value)
    requires Valid(Obj(fields)) && Valid(v)
    ensures Valid(Obj(Remove(fields, key))) && Valid(Obj(Assign(fields, key, v)))
  {
    RemoveMembers(fields, key, key);
    AssignMembers(fields, key, v, key);
    var r, a := Remove(fields, key), Assign(fields, key, v);
    forall i | 0 <= i < |r| ensures Valid(r[i].val) { assert r[i] in r; }
    forall i | 0 <= i < |a| ensures Valid(a[i].val) { assert a[i] in a; }
  }

  predicate Truthy(v: Value) {
    match v
    case Null => false
    case Bool(b) => b
    case Num(t) => t != "0"
    case Str(s) => s != ""
    case _ => true
  }

  // ---------------------------------------------------------------- the printer

  function Print(v: Value): string { PrintTo(v, "") }

  /** The text of `v` followed by `rest`. */
  function PrintTo(v: Value, rest: string): string {
    match v
    case Null => "null" + rest
    case Bool(b) => (if b then "true" else "false") + rest
    case Num(t) => t + rest
    case Str(s) => ['\"'] + QuoteTo(s, rest)
    case Arr(items) =>
      ['['] + if items == [] then [']'] + rest else PrintTo(items[0], ItemsTo(items[1..], rest))
    case Obj(fields) =>
      ['{'] + if fields == [] then ['}'] + rest else FieldTo(fields[0], FieldsTo(fields[1..], rest))
  }

  /** The rest of an array after an element, closing bracket included. */
  function ItemsTo(items: seq<Value>, rest: string): string {
    if items == [] then [']'] + rest else [','] + PrintTo(items[0], ItemsTo(items[1..], rest))
  }

  function FieldTo(f: Field, rest: string): string {
    ['\"'] + QuoteTo(f.key, [':'] + PrintTo(f.val, rest))
  }

  /** The rest of an object after a member, closing brace included. */
  function FieldsTo(fields: seq<Field>, rest: string): string {
    if fields == [] then ['}'] + rest else [','] + FieldTo(fields[0], FieldsTo(fields[1..], rest))
  }

  /** The rest of a string literal after its opening quote. */
  function QuoteTo(s: string, rest: string): string {
    if s == "" then ['\"'] + rest else Escape(s[0]) + QuoteTo(s[1..], rest)
  }

  function Escape(c: char): string {
    if c == '\"' then "\\\""
    else if c == '\\' then "\\\\"
    else if c == '\U{08}' then "\\b"
    else if c == '\U{0C}' then "\\f"
    else if c == '\n' then "\\n"
    else if c == '\r' then "\\r"
    else if c == '\t' then "\\t"
    else if c < ' ' then "\\u00" + [HexDigit(c as int / 16), HexDigit(c as int % 16)]
    else [c]
  }

  function HexDigit(n: int): char
    requires 0 <= n < 16
  {
    "0123456789abcdef"[n]
  }

  /** What is printed does not depend on what follows. */
  lemma {:induction false} PrintAppend(v: Value, rest: string)
    ensures PrintTo(v, rest) == Print(v) + rest
    decreases v, 0
  {
    match v
    case Str(s) =>
      QuoteAppend(s, rest);
      QuoteAppend(s, "");
    case Arr(items) =>
      if items != [] {
        ItemsAppend(items[1..], rest);
        PrintAppend(items[0], ItemsTo(items[1..], rest));
        PrintAppend(items[0], ItemsTo(items[1..], ""));
      }
    case Obj(fields) =>
      if fields != [] {
        FieldsAppend(fields[1..], rest);
        FieldAppend(fields[0], FieldsTo(fields[1..], rest));
        FieldAppend(fields[0], FieldsTo(fields[1..], ""));
      }
    case _ =>
  }

  lemma {:induction false} QuoteAppend(s: string, rest: string)
    ensures QuoteTo(s, rest) == QuoteTo(s, "") + rest
  {
    if s != "" {
      QuoteAppend(s[1..], rest);
      assert Escape(s[0]) + (QuoteTo(s[1..], "") + rest) == Escape(s[0]) + QuoteTo(s[1..], "") + rest;
    }
  }

  lemma {:induction false} ItemsAppend(items: seq<Value>, rest: string)
    ensures ItemsTo(items, rest) == ItemsTo(items, "") + rest
    decreases items, 0
  {
    if items != [] {
      ItemsAppend(items[1..], rest);
      PrintAppend(items[0], ItemsTo(items[1..], rest));
      PrintAppend(items[0], ItemsTo(items[1..], ""));
    }
  }

  lemma {:induction false} FieldAppend(f: Field, rest: string)
    ensures FieldTo(f, rest) == FieldTo(f, "") + rest
    decreases f, 0
  {
    PrintAppend(f.val, rest);
    QuoteAppend(f.key, [':'] + PrintTo(f.val, rest));
    QuoteAppend(f.key, [':'] + PrintTo(f.val, ""));
  }

  lemma {:induction false} FieldsAppend(fields: seq<Field>, rest: string)
    ensures FieldsTo(fields, rest) == FieldsTo(fields, "") + rest
    decreases fields, 0
  {
    if fields != [] {
      FieldsAppend(fields[1..], rest);
      FieldAppend(fields[0], FieldsTo(fields[1..], rest));
      FieldAppend(fields[0], FieldsTo(fields[1..], ""));
    }
  }

  /** The members of a list of texts, with commas between them. */
  function Commas(texts: seq<string>): string {
    if texts == [] then "" else if |texts| == 1 then texts[0] else texts[0] + "," + Commas(texts[1..])
  }

  function ItemTexts(items: seq<Value>): seq<string> {
    seq(|items|, i requires 0 <= i < |items| => Print(items[i]))
  }

  function FieldTexts(fields: seq<Field>): seq<string> {
    seq(|fields|, i requires 0 <= i < |fields| => Print(Str(fields[i].key)) + ":" + Print(fields[i].val))
  }

  lemma {:induction false} ItemsText(items: seq<Value>)
    ensures ItemsTo(items, "") == (if items == [] then "" else "," + Commas(ItemTexts(items))) + "]"
  {
    if items != [] {
      ItemsText(items[1..]);
      PrintAppend(items[0], ItemsTo(items[1..], ""));
      assert ItemTexts(items)[1..] == ItemTexts(items[1..]);
    }
  }

  lemma {:induction false} FieldsText(fields: seq<Field>)
    ensures FieldsTo(fields, "") == (if fields == [] then "" else "," + Commas(FieldTexts(fields))) + "}"
  {
    if fields != [] {
      FieldsText(fields[1..]);
      FieldText(fields[0], FieldsTo(fields[1..], ""));
      assert FieldTexts(fields)[1..] == FieldTexts(fields[1..]);
    }
  }

  lemma FieldText(f: Field, rest: string)
    ensures FieldTo(f, rest) == Print(Str(f.key)) + ":" + Print(f.val) + rest
  {
    PrintAppend(f.val, rest);
    QuoteAppend(f.key, [':'] + PrintTo(f.val, rest));
  }

  lemma {:induction false} ArrText(items: seq<Value>)
    ensures Print(Arr(items)) == "[" + Commas(ItemTexts(items)) + "]"
  {
    if items != [] {
      ItemsText(items[1..]);
      PrintAppend(items[0], ItemsTo(items[1..], ""));
      assert ItemTexts(items)[1..] == ItemTexts(items[1..]);
    }
  }

  lemma {:induction false} ObjText(fields: seq<Field>)
    ensures Print(Obj(fields)) == "{" + Commas(FieldTexts(fields)) + "}"
  {
    if fields != [] {
      FieldsText(fields[1..]);
      FieldText(fields[0], FieldsTo(fields[1..], ""));
      assert FieldTexts(fields)[1..] == FieldTexts(fields[1..]);
    }
  }

  /**
    What is printed: the tokens of the scalars, and the texts of elements and members between brackets, separated by
    commas (RFC 8259, sections 3 to 5).
   */
  lemma {:induction false} PrintedText(v: Value)
    ensures match v
            case Null => Print(v) == "null"
            case Bool(b) => Print(v) == if b then "true" else "false"
            case Num(t) => Print(v) == t
            case Str(s) => Print(v) == "\"" + QuoteTo(s, "")
            case Arr(items) => Print(v) == "[" + Commas(ItemTexts(items)) + "]"
            case Obj(fields) => Print(v) == "{" + Commas(FieldTexts(fields)) + "}"
  {
    match v
    case Arr(items) => ArrText(items);
    case Obj(fields) => ObjText(fields);
    case _ =>
  }

  /** How a character is printed (section 7): itself, unless it is a quote, a backslash or a control character. */
  lemma EscapedText(c: char)
    ensures c == '\"' ==> Escape(c) == ['\\', '\"']
    ensures c == '\\' ==> Escape(c) == ['\\', '\\']
    ensures c == '\n' ==> Escape(c) == ['\\', 'n']
    ensures c == '\r' ==> Escape(c) == ['\\', 'r']
    ensures c == '\t' ==> Escape(c) == ['\\', 't']
    ensures c as int == 8 ==> Escape(c) == ['\\', 'b']
    ensures c as int == 12 ==> Escape(c) == ['\\', 'f']
    ensures c as int == 31 ==> Escape(c) == ['\\', 'u', '0', '0', '1', 'f']
    ensures c >= ' ' && c != '\"' && c != '\\' ==> Escape(c) == [c]
  {
  }

  /** SHA-256 in hexadecimal; only its injectivity is ever used. */
  type Hash = string -> string

  ghost predicate Injective(h: Hash) {
    forall x, y :: h(x) == h(y) ==> x == y
  }

  // ---------------------------------------------------------------- unique splitting

  /** A text that cannot continue a number token. */
  predicate Delimited(x: string) {
    x == "" || !NumberChar(x[0])
  }

  lemma {:induction false} SplitAt(p: string, q: string, x: string, y: string)
    requires |p| == |q| && p + x == q + y
    ensures p == q && x == y
  {
    assert p == (p + x)[..|p|] && x == (p + x)[|p|..];
  }

  lemma HeadCancel(c: char, d: char, x: string, y: string)
    requires [c] + x == [d] + y
    ensures c == d && x == y
  {
    SplitAt([c], [d], x, y);
  }

  lemma {:induction false} HexDigits(c: char, d: char)
    requires c < ' ' && d < ' '
    requires HexDigit(c as int / 16) == HexDigit(d as int / 16)
    requires HexDigit(c as int % 16) == HexDigit(d as int % 16)
    ensures c == d
  {
    assert c as int / 16 == d as int / 16;
    assert c as int % 16 == d as int % 16;
  }

  /** An escape sequence is recognised by its first two characters, and never starts with a quote. */
  lemma EscapeShape(c: char)
    ensures var e := Escape(c);
            e != "" && e[0] != '\"'
            && (e[0] != '\\' ==> e == [c])
            && (e[0] == '\\' ==> |e| >= 2 && |e| == if e[1] == 'u' then 6 else 2)
  {
  }

  lemma EscapeInjective(c: char, d: char)
    requires Escape(c) == Escape(d)
    ensures c == d
  {
    var p, q := Escape(c), Escape(d);
    if |p| == 6 {
      assert p[4] == q[4] && p[5] == q[5];
      HexDigits(c, d);
    } else {
      assert |q| != 6;
      assert p[0] == q[0];
      if |p| == 2 { assert p[1] == q[1]; }
    }
  }

  lemma EscapeCancel(c: char, d: char, x: string, y: string)
    requires Escape(c) + x == Escape(d) + y
    ensures c == d && x == y
  {
    var p, q := Escape(c), Escape(d);
    EscapeShape(c);
    EscapeShape(d);
    assert (p + x)[0] == p[0] && (q + y)[0] == q[0];
    if p[0] == '\\' {
      assert (p + x)[1] == p[1] && (q + y)[1] == q[1];
    }
    SplitAt(p, q, x, y);
    EscapeInjective(c, d);
  }

  lemma {:induction false} QuoteCancel(s: string, t: string, x: string, y: string)
    requires QuoteTo(s, x) == QuoteTo(t, y)
    ensures s == t && x == y
  {
    if s != "" { EscapeShape(s[0]); }
    if t != "" { EscapeShape(t[0]); }
    assert QuoteTo(s, x)[0] == if s == "" then '\"' else Escape(s[0])[0];
    assert QuoteTo(t, y)[0] == if t == "" then '\"' else Escape(t[0])[0];
    if s == "" {
      HeadCancel('\"', '\"', x, y);
    } else {
      EscapeCancel(s[0], t[0], QuoteTo(s[1..], x), QuoteTo(t[1..], y));
      QuoteCancel(s[1..], t[1..], x, y);
      assert s == [s[0]] + s[1..] && t == [t[0]] + t[1..];
    }
  }

  lemma {:induction false} NumberCancel(t: string, u: string, x: string, y: string)
    requires ValidNumber(t) && ValidNumber(u) && Delimited(x) && Delimited(y)
    requires t + x == u + y
    ensures t == u && x == y
  {
    NotLonger(t, u, x, y);
    NotLonger(u, t, y, x);
    SplitAt(t, u, x, y);
  }

  lemma NotLonger(t: string, u: string, x: string, y: string)
    requires ValidNumber(u) && Delimited(x) && t + x == u + y
    ensures |u| <= |t|
  {
    var w := t + x;
    assert forall i :: 0 <= i < |u| ==> w[i] == u[i];
    if x != "" {
      assert w[|t|] == x[0];
    }
  }

  /** The first character of a printed value tells its kind. */
  lemma FirstChar(v: Value, rest: string)
    requires Valid(v)
    ensures PrintTo(v, rest) != ""
    ensures var c := PrintTo(v, rest)[0];
            (NumberChar(c) <==> v.Num?) && (c == '\"' <==> v.Str?) && (c == '[' <==> v.Arr?)
            && (c == '{' <==> v.Obj?) && (c == 'n' <==> v.Null?)
            && (c == 't' <==> v == Bool(true)) && (c == 'f' <==> v == Bool(false))
            && c != ']' && c != '}'
  {
  }

  /** Prefix freedom: a printed value can be split off a text in one way only. */
  lemma {:induction false} PrintCancel(a: Value, b: Value, x: string, y: string)
    requires Valid(a) && Valid(b) && Delimited(x) && Delimited(y)
    requires PrintTo(a, x) == PrintTo(b, y)
    ensures a == b && x == y
    decreases a, 0
  {
    FirstChar(a, x);
    FirstChar(b, y);
    match a
    case Null => SplitAt("null", "null", x, y);
    case Bool(v) => var t := if v then "true" else "false"; SplitAt(t, t, x, y);
    case Num(t) => NumberCancel(t, b.token, x, y);
    case Str(s) =>
      HeadCancel('\"', '\"', QuoteTo(s, x), QuoteTo(b.s, y));
      QuoteCancel(s, b.s, x, y);
    case Arr(items) => ArrCancel(items, b.items, x, y);
    case Obj(fields) => ObjCancel(fields, b.fields, x, y);
  }

  lemma {:induction false} ArrCancel(ls: seq<Value>, rs: seq<Value>, x: string, y: string)
    requires Valid(Arr(ls)) && Valid(Arr(rs))
    requires PrintTo(Arr(ls), x) == PrintTo(Arr(rs), y)
    ensures ls == rs && x == y
    decreases ls, 1
  {
    var p := if ls == [] then [']'] + x else PrintTo(ls[0], ItemsTo(ls[1..], x));
    var q := if rs == [] then [']'] + y else PrintTo(rs[0], ItemsTo(rs[1..], y));
    HeadCancel('[', '[', p, q);
    if ls != [] { FirstChar(ls[0], ItemsTo(ls[1..], x)); }
    if rs != [] { FirstChar(rs[0], ItemsTo(rs[1..], y)); }
    if ls == [] {
      HeadCancel(']', ']', x, y);
    } else {
      PrintCancel(ls[0], rs[0], ItemsTo(ls[1..], x), ItemsTo(rs[1..], y));
      ItemsCancel(ls[1..], rs[1..], x, y);
      assert ls == [ls[0]] + ls[1..] && rs == [rs[0]] + rs[1..];
    }
  }

  lemma {:induction false} ItemsCancel(ls: seq<Value>, rs: seq<Value>, x: string, y: string)
    requires Valid(Arr(ls)) && Valid(Arr(rs))
    requires ItemsTo(ls, x) == ItemsTo(rs, y)
    ensures ls == rs && x == y
    decreases ls, 0
  {
    assert ItemsTo(ls, x)[0] == (if ls == [] then ']' else ',');
    assert ItemsTo(rs, y)[0] == (if rs == [] then ']' else ',');
    if ls == [] {
      HeadCancel(']', ']', x, y);
    } else {
      HeadCancel(',', ',', PrintTo(ls[0], ItemsTo(ls[1..], x)), PrintTo(rs[0], ItemsTo(rs[1..], y)));
      PrintCancel(ls[0], rs[0], ItemsTo(ls[1..], x), ItemsTo(rs[1..], y));
      ItemsCancel(ls[1..], rs[1..], x, y);
      assert ls == [ls[0]] + ls[1..] && rs == [rs[0]] + rs[1..];
    }
  }

  lemma {:induction false} FieldCancel(f: Field, g: Field, x: string, y: string)
    requires Valid(f.val) && Valid(g.val) && Delimited(x) && Delimited(y)
    requires FieldTo(f, x) == FieldTo(g, y)
    ensures f == g && x == y
    decreases f, 0
  {
    var u, v := [':'] + PrintTo(f.val, x), [':'] + PrintTo(g.val, y);
    HeadCancel('\"', '\"', QuoteTo(f.key, u), QuoteTo(g.key, v));
    QuoteCancel(f.key, g.key, u, v);
    HeadCancel(':', ':', PrintTo(f.val, x), PrintTo(g.val, y));
    PrintCancel(f.val, g.val, x, y);
  }

  lemma {:induction false} ObjCancel(ls: seq<Field>, rs: seq<Field>, x: string, y: string)
    requires Valid(Obj(ls)) && Valid(Obj(rs))
    requires PrintTo(Obj(ls), x) == PrintTo(Obj(rs), y)
    ensures ls == rs && x == y
    decreases ls, 1
  {
    var p := if ls == [] then ['}'] + x else FieldTo(ls[0], FieldsTo(ls[1..], x));
    var q := if rs == [] then ['}'] + y else FieldTo(rs[0], FieldsTo(rs[1..], y));
    HeadCancel('{', '{', p, q);
    assert p[0] == (if ls == [] then '}' else '\"') && q[0] == (if rs == [] then '}' else '\"');
    if ls == [] {
      HeadCancel('}', '}', x, y);
    } else {
      FieldCancel(ls[0], rs[0], FieldsTo(ls[1..], x), FieldsTo(rs[1..], y));
      FieldsCancel(ls[1..], rs[1..], x, y);
      assert ls == [ls[0]] + ls[1..] && rs == [rs[0]] + rs[1..];
    }
  }

  lemma {:induction false} FieldsCancel(ls: seq<Field>, rs: seq<Field>, x: string, y: string)
    requires Valid(Obj(ls)) && Valid(Obj(rs))
    requires FieldsTo(ls, x) == FieldsTo(rs, y)
    ensures ls == rs && x == y
    decreases ls, 0
  {
    assert FieldsTo(ls, x)[0] == (if ls == [] then '}' else ',');
    assert FieldsTo(rs, y)[0] == (if rs == [] then '}' else ',');
    if ls == [] {
      HeadCancel('}', '}', x, y);
    } else {
      HeadCancel(',', ',', FieldTo(ls[0], FieldsTo(ls[1..], x)), FieldTo(rs[0], FieldsTo(rs[1..], y)));
      FieldCancel(ls[0], rs[0], FieldsTo(ls[1..], x), FieldsTo(rs[1..], y));
      FieldsCancel(ls[1..], rs[1..], x, y);
      assert ls == [ls[0]] + ls[1..] && rs == [rs[0]] + rs[1..];
    }
  }

  /** The printed text determines the value. */
  lemma PrintInjective(a: Value, b: Value)
    requires Valid(a) && Valid(b)
    ensures Print(a) == Print(b) <==> a == b
  {
    if Print(a) == Print(b) {
      PrintCancel(a, b, "", "");
    }
  }
}
