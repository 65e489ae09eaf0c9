/**
  The Kubernetes API server as the gateway sees it: one Deployment, stored with a resourceVersion
  that is fresh on every write, and JSON Patch (RFC 6902) over it. A pointer is given by its
  reference tokens, unescaped (RFC 6901, section 4).
 */
module ApiServer {
  import opened Wrappers
  import opened Json
  import opened Text

  type Path = seq<string>

  /** The tests that are sent compare strings (section 4.6). */
  datatype Op = Test(path: Path, text: string) | Replace(path: Path, value: Value) | Add(path: Path, value: Value)

  /** The value a pointer refers to. No pointer here goes through an array. */
  function At(v: Value, path: Path): Option<Value>
    decreases |path|
  {
    if path == [] then Some(v)
    else if !v.Obj? then None
    else match Lookup(v.fields, path[0])
      case None => None
      case Some(child) => At(child, path[1..])
  }

  /** Section 4.3 asks that the target exist, section 4.1 only that its parent do. */
  function Put(v: Value, path: Path, x: Value, mustExist: bool): Option<Value>
    decreases |path|
  {
    if path == [] then Some(x)
    else if !v.Obj? then None
    else if |path| == 1 then
      if mustExist && Lookup(v.fields, path[0]).None? then None else Some(Obj(Assign(v.fields, path[0], x)))
    else match Lookup(v.fields, path[0])
      case None => None
      case Some(child) =>
        match Put(child, path[1..], x, mustExist)
        case None => None
        case Some(c) => Some(Obj(Assign(v.fields, path[0], c)))
  }

  function ApplyOp(v: Value, op: Op): Option<Value> {
    match op
    case Test(path, text) => if At(v, path) == Some(Str(text)) then Some(v) else None
    case Replace(path, x) => Put(v, path, x, true)
    case Add(path, x) => Put(v, path, x, false)
  }

  /** Section 5: one failing operation fails the whole patch. */
  function ApplyPatch(v: Value, patch: seq<Op>): Option<Value>
    decreases |patch|
  {
    if patch == [] then Some(v)
    else match ApplyOp(v, patch[0])
      case None => None
      case Some(w) => ApplyPatch(w, patch[1..])
  }

  // ---------------------------------------------------------------- what a write changes

  lemma {:induction false} AssignLookup(fields: seq<Field>, key: string, x: Value, k: string)
    ensures Lookup(Assign(fields, key, x), k) == if k == key then Some(x) else Lookup(fields, k)
  {
    if fields != [] {
      AssignLookup(fields[1..], key, x, k);
      if fields[0].key != key {
        assert Assign(fields, key, x)[1..] == Assign(fields[1..], key, x);
      }
    }
  }

  /** Neither pointer leads through the place of the other. */
  predicate Apart(p: Path, q: Path)
    decreases |p|
  {
    p != [] && q != [] && (p[0] != q[0] || Apart(p[1..], q[1..]))
  }

  /** A write is read back, and everything apart from it stays. */
  lemma {:induction false} PutEffect(v: Value, path: Path, x: Value, mustExist: bool, q: Path)
    requires Put(v, path, x, mustExist).Some?
    ensures var r := Put(v, path, x, mustExist).value;
            At(r, path) == Some(x) && (Apart(path, q) ==> At(r, q) == At(v, q))
    decreases |path|
  {
    if path != [] {
      if |path| == 1 {
        AssignLookup(v.fields, path[0], x, path[0]);
        assert path[1..] == [];
        if Apart(path, q) {
          AssignLookup(v.fields, path[0], x, q[0]);
          assert !Apart(path[1..], q[1..]);
          assert Lookup(Assign(v.fields, path[0], x), q[0]) == Lookup(v.fields, q[0]);
        }
      } else {
        var child := Lookup(v.fields, path[0]).value;
        var c := Put(child, path[1..], x, mustExist).value;
        PutEffect(child, path[1..], x, mustExist, if q == [] then [] else q[1..]);
        AssignLookup(v.fields, path[0], c, path[0]);
        if q != [] { AssignLookup(v.fields, path[0], c, q[0]); }
      }
    }
  }

  /** Where a write is possible. */
  lemma {:induction false} PutIff(v: Value, path: Path, x: Value, mustExist: bool)
    requires path != []
    ensures var parent := At(v, path[..|path| - 1]);
            Put(v, path, x, mustExist).Some?
            <==> parent.Some? && parent.value.Obj? && (mustExist ==> At(v, path).Some?)
    decreases |path|
  {
    if |path| == 1 {
      assert path[1..] == [] && path[..0] == [];
      if v.Obj? && Lookup(v.fields, path[0]).Some? { assert At(Lookup(v.fields, path[0]).value, path[1..]).Some?; }
    } else {
      assert path[..|path| - 1][0] == path[0] && path[..|path| - 1][1..] == path[1..][..|path| - 2];
      if v.Obj? && Lookup(v.fields, path[0]).Some? {
        PutIff(Lookup(v.fields, path[0]).value, path[1..], x, mustExist);
      }
    }
  }

  lemma {:induction false} PutValid(v: Value, path: Path, x: Value, mustExist: bool)
    requires Valid(v) && Valid(x) && Put(v, path, x, mustExist).Some?
    ensures Valid(Put(v, path, x, mustExist).value)
    decreases |path|
  {
    if path != [] {
      if |path| == 1 {
        ValidEdit(v.fields, path[0], x);
      } else {
        var child := Lookup(v.fields, path[0]).value;
        var i := LookupSome(v.fields, path[0]);
        PutValid(child, path[1..], x, mustExist);
        ValidEdit(v.fields, path[0], Put(child, path[1..], x, mustExist).value);
      }
    }
  }

  lemma {:induction false} AtValid(v: Value, path: Path)
    requires Valid(v) && At(v, path).Some?
    ensures Valid(At(v, path).value)
    decreases |path|
  {
    if path != [] {
      var i := LookupSome(v.fields, path[0]);
      AtValid(v.fields[i].val, path[1..]);
    }
  }

  // ---------------------------------------------------------------- the stored object

  const VERSION: Path := ["metadata", "resourceVersion"]

  /** What the server stores has an object for its metadata. */
  predicate Storable(v: Value) {
    v.Obj? && Lookup(v.fields, "metadata").Some? && Lookup(v.fields, "metadata").value.Obj?
  }

  function Stamped(v: Value, n: nat): (r: Value)
    requires Storable(v)
    ensures Storable(r) && At(r, VERSION) == Some(Str(Decimal(n)))
  {
    var meta := Assign(Lookup(v.fields, "metadata").value.fields, "resourceVersion", Str(Decimal(n)));
    AssignLookup(Lookup(v.fields, "metadata").value.fields, "resourceVersion", Str(Decimal(n)), "resourceVersion");
    AssignLookup(v.fields, "metadata", Obj(meta), "metadata");
    assert VERSION[1..] == ["resourceVersion"] && VERSION[1..][1..] == [];
    Obj(Assign(v.fields, "metadata", Obj(meta)))
  }

  lemma {:induction false} StampedElsewhere(v: Value, n: nat, q: Path)
    requires Storable(v) && Apart(VERSION, q)
    ensures At(Stamped(v, n), q) == At(v, q)
    ensures Valid(v) ==> Valid(Stamped(v, n))
  {
    assert VERSION[1..] == ["resourceVersion"];
    var x := Str(Decimal(n));
    PutIff(v, VERSION, x, false);
    assert VERSION[..1] == ["metadata"] && VERSION[..1][1..] == [];
    assert Put(v, VERSION, x, false) == Some(Stamped(v, n));
    PutEffect(v, VERSION, x, false, q);
    if Valid(v) { PutValid(v, VERSION, x, false); }
  }

  /** Everything ever stored, the live object last; `None` is a deletion. */
  type History = seq<Option<Value>>

  function Live(s: History): Option<Value> {
    if s == [] then None else s[|s| - 1]
  }

  /** A write that cannot be stored is turned down. */
  function Write(s: History, w: Option<Value>): History {
    match w
    case None => s + [None]
    case Some(v) => if Storable(v) then s + [Some(Stamped(v, |s|))] else s
  }

  function Writes(s: History, ws: seq<Option<Value>>): History
    decreases |ws|
  {
    if ws == [] then s else Writes(Write(s, ws[0]), ws[1..])
  }

  predicate Accepts(s: History, patch: seq<Op>) {
    Live(s).Some? && ApplyPatch(Live(s).value, patch).Some? && Storable(ApplyPatch(Live(s).value, patch).value)
  }

  /** Stored; 404, as there is no object; or 422, as some operation does not apply. */
  datatype PatchAnswer = Stored | Missing | Unprocessable

  function AnswerTo(s: History, patch: seq<Op>): PatchAnswer {
    if Live(s).None? then Missing else if Accepts(s, patch) then Stored else Unprocessable
  }

  function Patched(s: History, patch: seq<Op>): History {
    if Accepts(s, patch) then Write(s, ApplyPatch(Live(s).value, patch)) else s
  }

  /** Each stored object carries the version of its own write. */
  ghost predicate Versioned(s: History) {
    forall i :: 0 <= i < |s| && s[i].Some? ==> At(s[i].value, VERSION) == Some(Str(Decimal(i)))
  }

  lemma WriteVersioned(s: History, w: Option<Value>)
    requires Versioned(s)
    ensures Versioned(Write(s, w)) && s <= Write(s, w)
  {
  }

  lemma {:induction false} WritesVersioned(s: History, ws: seq<Option<Value>>)
    requires Versioned(s)
    ensures Versioned(Writes(s, ws)) && s <= Writes(s, ws)
    decreases |ws|
  {
    if ws != [] {
      WriteVersioned(s, ws[0]);
      WritesVersioned(Write(s, ws[0]), ws[1..]);
    }
  }

  /** Equal versions mean the very same write: versions are never used twice. */
  lemma {:induction false} SameVersionSameWrite(s: History, i: nat, j: nat)
    requires Versioned(s) && i < |s| && j < |s| && s[i].Some? && s[j].Some?
    requires At(s[i].value, VERSION) == At(s[j].value, VERSION)
    ensures i == j
  {
    DecimalInjective(i, j);
  }

  class Server {
    var history: History

    constructor (first: Value)
      requires Storable(first)
      ensures history == [Some(Stamped(first, 0))] && Versioned(history)
    {
      history := [Some(Stamped(first, 0))];
    }

    /** Writes of other actors. */
    method Interfere(ws: seq<Option<Value>>)
      modifies this
      ensures history == Writes(old(history), ws)
    {
      for i := 0 to |ws|
        invariant Writes(history, ws[i..]) == Writes(old(history), ws)
      {
        assert ws[i..][0] == ws[i] && ws[i..][1..] == ws[i + 1..];
        history := Write(history, ws[i]);
      }
    }

    method Patch(patch: seq<Op>) returns (answer: PatchAnswer)
      modifies this
      ensures answer == AnswerTo(old(history), patch) && history == Patched(old(history), patch)
    {
      if Live(history).None? {
        return Missing;
      }
      var current := Live(history).value;
      for i := 0 to |patch|
        invariant ApplyPatch(current, patch[i..]) == ApplyPatch(Live(history).value, patch)
        invariant history == old(history)
      {
        assert patch[i..][0] == patch[i] && patch[i..][1..] == patch[i + 1..];
        var next := ApplyOp(current, patch[i]);
        if next.None? {
          return Unprocessable;
        }
        current := next.value;
      }
      assert patch[|patch|..] == [];
      if !Storable(current) {
        return Unprocessable;
      }
      history := Write(history, Some(current));
      return Stored;
    }
  }
}
