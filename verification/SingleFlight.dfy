/**
  The per-process single flight of executeProposal
  (services/execution-service/src/index.ts:59-96).

  A run is one performExecution and its promise. A promise settles, then its `.then` callback
  fills the cache, then `.finally` reopens the key; other calls may come in between.
 */
module SingleFlight {
  import opened Wrappers

  datatype Promise<R> = Pending | Fulfilled(result: R) | Rejected

  /** `remembered`: the `.then` callback has run. `released`: the `.finally` callback has. */
  datatype Run<R> = Run(key: string, promise: Promise<R>, remembered: bool, released: bool)

  datatype Flight<R> = Flight(executed: map<string, R>, inFlight: map<string, nat>, runs: seq<Run<R>>)

  datatype Reply<R> = Cached(result: R) | Joined(run: nat) | Started(run: nat)

  datatype Event<R> =
    | Call(key: string)
    | Settle(run: nat, result: Option<R>)   // None: the promise rejects
    | Remember(run: nat)
    | Release(run: nat)

  predicate Enabled<R>(s: Flight<R>, e: Event<R>) {
    match e
    case Call(_) => true
    case Settle(i, _) => i < |s.runs| && s.runs[i].promise.Pending?
    case Remember(i) => i < |s.runs| && s.runs[i].promise.Fulfilled? && !s.runs[i].remembered
    case Release(i) =>
      i < |s.runs| && !s.runs[i].released && (s.runs[i].promise.Rejected? || s.runs[i].remembered)
  }

  function Answer<R>(s: Flight<R>, key: string): Reply<R> {
    if key in s.executed then Cached(s.executed[key])
    else if key in s.inFlight then Joined(s.inFlight[key])
    else Started(|s.runs|)
  }

  function Apply<R>(s: Flight<R>, e: Event<R>): Flight<R>
    requires Enabled(s, e)
  {
    match e
    case Call(key) =>
      if Answer(s, key).Started? then
        s.(inFlight := s.inFlight[key := |s.runs|], runs := s.runs + [Run(key, Pending, false, false)])
      else s
    case Settle(i, r) =>
      s.(runs := s.runs[i := s.runs[i].(promise := if r.Some? then Fulfilled(r.value) else Rejected)])
    case Remember(i) =>
      if s.runs[i].promise.Fulfilled? then
        s.(executed := s.executed[s.runs[i].key := s.runs[i].promise.result],
           runs := s.runs[i := s.runs[i].(remembered := true)])
      else s
    case Release(i) =>
      s.(inFlight := s.inFlight - {s.runs[i].key}, runs := s.runs[i := s.runs[i].(released := true)])
  }

  ghost predicate HasRemembered<R>(s: Flight<R>, k: string) {
    exists i :: 0 <= i < |s.runs| && s.runs[i].key == k && s.runs[i].remembered
  }

  /** The in-flight table lists exactly the unreleased runs. */
  ghost predicate TableExact<R>(s: Flight<R>) {
    (forall k :: k in s.inFlight ==>
       s.inFlight[k] < |s.runs| && s.runs[s.inFlight[k]].key == k && !s.runs[s.inFlight[k]].released)
    && (forall i :: 0 <= i < |s.runs| && !s.runs[i].released ==>
          s.runs[i].key in s.inFlight && s.inFlight[s.runs[i].key] == i)
  }

  /** The cache lists exactly the remembered runs. */
  ghost predicate CacheExact<R>(s: Flight<R>) {
    (forall i :: 0 <= i < |s.runs| && s.runs[i].remembered ==>
       s.runs[i].promise.Fulfilled? && s.runs[i].key in s.executed
       && s.executed[s.runs[i].key] == s.runs[i].promise.result)
    && (forall k :: k in s.executed ==> HasRemembered(s, k))
  }

  /** A later run of a key follows rejections only. */
  ghost predicate OneAfterAnother<R>(s: Flight<R>) {
    (forall i :: 0 <= i < |s.runs| && s.runs[i].released ==> s.runs[i].promise.Rejected? || s.runs[i].remembered)
    && (forall i, j :: 0 <= i < j < |s.runs| && s.runs[i].key == s.runs[j].key ==>
          s.runs[i].promise.Rejected? && s.runs[i].released)
  }

  ghost predicate Inv<R>(s: Flight<R>) {
    TableExact(s) && CacheExact(s) && OneAfterAnother(s)
  }

  lemma {:induction false} TableStep<R>(s: Flight<R>, e: Event<R>)
    requires Inv(s) && Enabled(s, e)
    ensures TableExact(Apply(s, e))
  {
  }

  lemma {:induction false} CacheStep<R>(s: Flight<R>, e: Event<R>)
    requires Inv(s) && Enabled(s, e)
    ensures CacheExact(Apply(s, e))
  {
    var t := Apply(s, e);
    forall k | k in t.executed ensures HasRemembered(t, k) {
      if k in s.executed {
        var i :| 0 <= i < |s.runs| && s.runs[i].key == k && s.runs[i].remembered;
        assert t.runs[i].key == k && t.runs[i].remembered;
      } else {
        assert t.runs[e.run].key == k && t.runs[e.run].remembered;
      }
    }
    if e.Remember? {
      forall i | 0 <= i < |s.runs| && s.runs[i].remembered && s.runs[i].key == s.runs[e.run].key ensures i == e.run {
        assert OneAfterAnother(s);
      }
    }
  }

  lemma {:induction false} OrderStep<R>(s: Flight<R>, e: Event<R>)
    requires Inv(s) && Enabled(s, e)
    ensures OneAfterAnother(Apply(s, e))
  {
    if e.Call? && Answer(s, e.key).Started? {
      forall i | 0 <= i < |s.runs| && s.runs[i].key == e.key ensures s.runs[i].promise.Rejected? && s.runs[i].released {
        assert s.runs[i].released;
        assert !s.runs[i].remembered;
      }
    }
  }

  lemma {:induction false} InvStep<R>(s: Flight<R>, e: Event<R>)
    requires Inv(s) && Enabled(s, e)
    ensures Inv(Apply(s, e))
  {
    TableStep(s, e);
    CacheStep(s, e);
    OrderStep(s, e);
  }

  predicate Feasible<R>(s: Flight<R>, events: seq<Event<R>>)
    decreases |events|
  {
    events == [] || (Enabled(s, events[0]) && Feasible(Apply(s, events[0]), events[1..]))
  }

  function After<R>(s: Flight<R>, events: seq<Event<R>>): Flight<R>
    requires Feasible(s, events)
    decreases |events|
  {
    if events == [] then s else After(Apply(s, events[0]), events[1..])
  }

  lemma {:induction false} InvRun<R>(s: Flight<R>, events: seq<Event<R>>)
    requires Inv(s) && Feasible(s, events)
    ensures Inv(After(s, events)) && |s.runs| <= |After(s, events).runs|
    decreases |events|
  {
    if events != [] {
      InvStep(s, events[0]);
      InvRun(Apply(s, events[0]), events[1..]);
    }
  }

  function Fresh<R>(): Flight<R> { Flight(map[], map[], []) }

  /** In every run of the service at most one performExecution per key is pending. */
  lemma OnePending<R>(events: seq<Event<R>>, i: nat, j: nat)
    requires Feasible(Fresh<R>(), events)
    requires i < |After(Fresh(), events).runs| && j < |After(Fresh(), events).runs|
    requires After(Fresh(), events).runs[i].key == After(Fresh(), events).runs[j].key
    requires After(Fresh(), events).runs[i].promise.Pending? && After(Fresh(), events).runs[j].promise.Pending?
    ensures i == j
  {
    InvRun(Fresh<R>(), events);
  }

  /** A run that has fulfilled is the last one ever started for its key. */
  lemma {:induction false} FulfilledIsLast<R>(s: Flight<R>, events: seq<Event<R>>, i: nat)
    requires Inv(s) && Feasible(s, events) && i < |s.runs| && s.runs[i].promise.Fulfilled?
    ensures var t := After(s, events);
            i < |t.runs| && t.runs[i].promise == s.runs[i].promise
            && forall j :: i < j < |t.runs| ==> t.runs[j].key != s.runs[i].key
    decreases |events|
  {
    if events != [] {
      InvStep(s, events[0]);
      FulfilledIsLast(Apply(s, events[0]), events[1..], i);
    }
  }

  /** A call starts a run exactly when every earlier run of the key was rejected and released. */
  lemma {:induction false} StartsIff<R>(s: Flight<R>, key: string)
    requires Inv(s)
    ensures Answer(s, key).Started? <==>
              forall i :: 0 <= i < |s.runs| && s.runs[i].key == key ==>
                s.runs[i].promise.Rejected? && s.runs[i].released
  {
    if key in s.executed {
      var i :| 0 <= i < |s.runs| && s.runs[i].key == key && s.runs[i].remembered;
    } else if key in s.inFlight {
      assert !s.runs[s.inFlight[key]].released;
    }
  }

  /** Otherwise the caller is given the outcome of the key's last run. */
  lemma {:induction false} AnswersLastRun<R>(s: Flight<R>, key: string, i: nat)
    requires Inv(s) && i < |s.runs| && s.runs[i].key == key
    requires forall j :: i < j < |s.runs| ==> s.runs[j].key != key
    ensures match Answer(s, key)
            case Cached(r) => s.runs[i].promise == Fulfilled(r)
            case Joined(run) => run == i
            case Started(_) => s.runs[i].promise.Rejected?
  {
    StartsIff(s, key);
    if key in s.executed {
      var m :| 0 <= m < |s.runs| && s.runs[m].key == key && s.runs[m].remembered;
      assert m == i;
    }
  }

  /** A call that starts a run registers it at once, pending, under its key; any other call changes nothing. */
  lemma CallEffect<R>(s: Flight<R>, key: string)
    requires Inv(s)
    ensures Enabled(s, Call(key))
    ensures var t := Apply(s, Call(key));
            if key in s.executed || key in s.inFlight then t == s
            else
              t.executed == s.executed && |t.runs| == |s.runs| + 1 && t.runs[..|s.runs|] == s.runs
              && t.runs[|s.runs|] == Run(key, Pending, false, false)
              && Answer(s, key) == Started(|s.runs|) && Answer(t, key) == Joined(|s.runs|)
  {
  }

  /** A run that fulfils: its callbacks can follow, and from then on every call is given its result. */
  lemma {:induction false} FulfilledLife<R>(s: Flight<R>, i: nat, result: R)
    requires Inv(s) && i < |s.runs| && s.runs[i].promise.Pending?
    ensures var events := [Settle(i, Some(result)), Remember(i), Release(i)];
            Feasible(s, events) && Answer(After(s, events), s.runs[i].key) == Cached(result)
            && s.runs[i].key !in After(s, events).inFlight
  {
    var events := [Settle(i, Some(result)), Remember(i), Release(i)];
    var s1 := Apply(s, events[0]);
    var s2 := Apply(s1, events[1]);
    var s3 := Apply(s2, events[2]);
    assert events[1..][1..][1..] == [] && events[1..] == [Remember(i), Release(i)];
    assert events[1..][1..] == [Release(i)];
    assert After(s3, []) == s3 && After(s2, [Release(i)]) == s3 && After(s1, events[1..]) == s3;
  }

  /** A run that rejects: its callback can follow, and the next call for the key starts a new run. */
  lemma {:induction false} RejectedLife<R>(s: Flight<R>, i: nat)
    requires Inv(s) && i < |s.runs| && s.runs[i].promise.Pending?
    ensures var events := [Settle(i, None), Release(i)];
            Feasible(s, events) && |After(s, events).runs| == |s.runs| && After(s, events).runs[i].promise.Rejected?
            && Answer(After(s, events), s.runs[i].key) == Started(|s.runs|)
  {
    var events := [Settle(i, None), Release(i)];
    var s1 := Apply(s, events[0]);
    var s2 := Apply(s1, events[1]);
    assert events[1..] == [Release(i)] && events[1..][1..] == [];
    assert After(s2, []) == s2 && After(s1, [Release(i)]) == s2;
    InvStep(s, events[0]);
    InvStep(s1, events[1]);
    var key := s.runs[i].key;
    forall j | 0 <= j < |s2.runs| && s2.runs[j].key == key ensures s2.runs[j].promise.Rejected? && s2.runs[j].released {
      if j != i { assert s.runs[j].key == s.runs[i].key; }
    }
    StartsIff(s2, key);
  }

  /** The two maps of the service, updated in place, and the promises they refer to. */
  class ExecutionService<R> {
    var executedKeys: map<string, R>
    var inFlightClaims: map<string, nat>
    var runs: seq<Run<R>>

    function Now(): Flight<R>
      reads this
    {
      Flight(executedKeys, inFlightClaims, runs)
    }

    constructor ()
      ensures Now() == Fresh() && Inv(Now())
    {
      executedKeys, inFlightClaims, runs := map[], map[], [];
    }

    method ExecuteProposal(key: string) returns (reply: Reply<R>)
      requires Inv(Now())
      modifies this
      ensures Inv(Now()) && Now() == Apply(old(Now()), Call(key)) && reply == Answer(old(Now()), key)
    {
      InvStep(Now(), Call(key));
      if key in executedKeys {
        return Cached(executedKeys[key]);
      }
      if key in inFlightClaims {
        return Joined(inFlightClaims[key]);
      }
      reply := Started(|runs|);
      inFlightClaims := inFlightClaims[key := |runs|];
      runs := runs + [Run(key, Pending, false, false)];
    }

    method SettleRun(i: nat, result: Option<R>)
      requires Inv(Now()) && Enabled(Now(), Settle(i, result))
      modifies this`runs
      ensures Inv(Now()) && Now() == Apply(old(Now()), Settle(i, result))
    {
      InvStep(Now(), Settle(i, result));
      runs := runs[i := runs[i].(promise := if result.Some? then Fulfilled(result.value) else Rejected)];
    }

    /** `.then`: executedKeys.set(key, res) */
    method OnFulfilled(i: nat)
      requires Inv(Now()) && Enabled(Now(), Remember(i))
      modifies this`executedKeys, this`runs
      ensures Inv(Now()) && Now() == Apply(old(Now()), Remember(i))
    {
      InvStep(Now(), Remember(i));
      executedKeys := executedKeys[runs[i].key := runs[i].promise.result];
      runs := runs[i := runs[i].(remembered := true)];
    }

    /** `.finally`: inFlightClaims.delete(key) */
    method OnSettled(i: nat)
      requires Inv(Now()) && Enabled(Now(), Release(i))
      modifies this`inFlightClaims, this`runs
      ensures Inv(Now()) && Now() == Apply(old(Now()), Release(i))
    {
      InvStep(Now(), Release(i));
      inFlightClaims := inFlightClaims - {runs[i].key};
      runs := runs[i := runs[i].(released := true)];
    }
  }
}
