/**
  The in-memory incident repository and the queue of writes behind it
  (services/incident-engine/src/repository.ts).

  A synchronous operation changes the incident object at once and appends database writes to the
  incident's queue. The queue is drained later, one write at a time, with whatever the live
  object then holds. The result: the database is always what memory was at some earlier point,
  no queued write is ever refused, and the two agree once the queue is empty.
 */
module IncidentStore {
  import opened Wrappers
  import opened Lifecycle
  import opened IncidentDb

  /** The part of an incident that the state machine owns. */
  datatype Core = Core(tenantId: string, state: State, version: nat)

  function CoreOf(row: IncidentRow): Core { Core(row.tenantId, row.state, row.version) }

  class Incident {
    const id: string
    const tenantId: string
    const createdAt: int
    var state: State
    var version: nat
    var severity: Severity
    var updatedAt: int
    var resolvedAt: Option<int>
    var mttrSeconds: Option<int>
    var eventIds: seq<string>

    constructor (id: string, tenantId: string, severity: Severity, eventIds: seq<string>, now: int)
      ensures this.id == id && this.tenantId == tenantId && this.createdAt == now && this.severity == severity
      ensures state == DETECTED && version == 1 && resolvedAt == None && this.eventIds == eventIds
    {
      this.id, this.tenantId, this.createdAt := id, tenantId, now;
      state, version, this.severity := DETECTED, 1, severity;
      updatedAt, resolvedAt, mttrSeconds, this.eventIds := now, None, None, eventIds;
    }

    function TheCore(): Core
      reads this
    {
      Core(tenantId, state, version)
    }

    /** `resolvedAt` is fixed by the first move to RESOLVED. */
    method MoveTo(target: State, now: int)
      modifies this
      ensures state == target && version == old(version) + 1 && severity == old(severity) && eventIds == old(eventIds)
      ensures resolvedAt == if old(resolvedAt).None? && target == RESOLVED then Some(now) else old(resolvedAt)
      ensures mttrSeconds ==
              if old(resolvedAt).None? && target == RESOLVED then Some(Seconds(now - createdAt)) else old(mttrSeconds)
    {
      state := target;
      version := version + 1;
      updatedAt := now;
      if target == RESOLVED && resolvedAt.None? {
        resolvedAt := Some(now);
        mttrSeconds := Some(Seconds(now - createdAt));
      }
    }

    method AddEvent(eventId: string)
      modifies this`eventIds
      ensures eventIds == if eventId in old(eventIds) then old(eventIds) else old(eventIds) + [eventId]
    {
      if eventId !in eventIds {
        eventIds := eventIds + [eventId];
      }
    }
  }

  /** Titles of timeline entries that the repository itself writes, and all others. */
  datatype TimelineEntry = Opened | Changed(from: State, to: State) | Note(title: string)

  /** A queued write. `Update` keeps a reference to the object, read when the write runs. */
  datatype Write =
    | Create(tenantId: string, severity: Severity)
    | Transition(target: State, options: Options)
    | Update(incident: Incident)
    | Timeline
    | Link

  /** What `Update` finds in the object at the time it runs. */
  datatype Live = Live(state: State, severity: Severity, mttr: Option<int>)

  /** The effect of one queued write on the incident's row. */
  function DbWrite(row: Option<IncidentRow>, w: Write, live: Live, now: int): Result<IncidentRow, Refusal> {
    match w
    case Create(tenantId, severity) => CreateRow(row, tenantId, severity, now)
    case Transition(target, options) => TransitionRow(row, target, options, now)
    case Update(_) => UpdateRow(row, live.state, live.severity, live.mttr)
    case _ => if row.Some? then Ok(row.value) else Err(NotFound)
  }

  /** The transition of memory: the same checks in the same order. */
  function TransitionCore(c: Core, target: State, options: Options): Result<Core, Refusal> {
    if options.tenantId != "" && c.tenantId != options.tenantId then Err(TenantForbidden)
    else if options.expectedVersion.Some? && c.version != options.expectedVersion.value then Err(StaleState)
    else if c.state == target then Ok(c)
    else if !CanTransition(c.state, target) then Err(IllegalTransition)
    else Ok(Core(c.tenantId, target, c.version + 1))
  }

  // ---------------------------------------------------------------- the queue and the past of memory

  /** `history` lists the cores memory went through; the database has reached the first `p` of them. */
  ghost predicate Follows(queue: seq<Write>, history: seq<Core>, p: nat) {
    if queue == [] then p == |history|
    else match queue[0]
      case Create(tenantId, _) =>
        p == 0 && history != [] && tenantId != "" && history[0] == Core(tenantId, DETECTED, 1)
        && Follows(queue[1..], history, 1)
      case Transition(target, options) =>
        0 < p < |history| && target != history[p - 1].state
        && TransitionCore(history[p - 1], target, options) == Ok(history[p]) && Follows(queue[1..], history, p + 1)
      case _ => p > 0 && Follows(queue[1..], history, p)
  }

  /** The row is what memory was after its first `p` changes. */
  ghost predicate RowAt(row: Option<IncidentRow>, history: seq<Core>, p: nat) {
    p <= |history| && if p == 0 then row.None? else row.Some? && CoreOf(row.value) == history[p - 1]
  }

  function Progress(w: Write, p: nat): nat {
    if w.Create? || w.Transition? then p + 1 else p
  }

  /** On the fields of the state machine the database decides as memory did. */
  lemma RowTransition(row: IncidentRow, target: State, options: Options, now: int)
    ensures var r := TransitionRow(Some(row), target, options, now);
            var c := TransitionCore(CoreOf(row), target, options);
            if r.Ok? then c == Ok(CoreOf(r.value)) else c == Err(r.error)
  {
    hide CanTransition;
  }

  /** The next queued write is accepted, whatever the live object holds, and moves the row along the history. */
  lemma DbWriteFollows(row: Option<IncidentRow>, queue: seq<Write>, history: seq<Core>, p: nat, live: Live, now: int)
    requires queue != [] && Follows(queue, history, p) && RowAt(row, history, p)
    ensures var r := DbWrite(row, queue[0], live, now);
            r.Ok? && RowAt(Some(r.value), history, Progress(queue[0], p))
            && Follows(queue[1..], history, Progress(queue[0], p))
  {
    hide CanTransition;
    match queue[0]
    case Transition(target, options) => RowTransition(row.value, target, options, now);
    case _ =>
  }

  /** Draining: the writes of `queue` in order, each with its own live values and time. */
  function Drain(row: Option<IncidentRow>, queue: seq<Write>, env: seq<(Live, int)>): Option<Option<IncidentRow>>
    requires |env| == |queue|
    decreases |queue|
  {
    if queue == [] then Some(row)
    else
      var r := DbWrite(row, queue[0], env[0].0, env[0].1);
      if r.Err? then None else Drain(Some(r.value), queue[1..], env[1..])
  }

  /** Once the queue has drained, the row agrees with memory; nothing was refused on the way. */
  lemma {:induction false} DrainedAgrees(row: Option<IncidentRow>, queue: seq<Write>, history: seq<Core>, p: nat,
                                         env: seq<(Live, int)>)
    requires Follows(queue, history, p) && RowAt(row, history, p) && |env| == |queue| && history != []
    ensures var r := Drain(row, queue, env);
            r.Some? && r.value.Some? && CoreOf(r.value.value) == history[|history| - 1]
    decreases |queue|
  {
    hide CanTransition;
    if queue != [] {
      DbWriteFollows(row, queue, history, p, env[0].0, env[0].1);
      var r := DbWrite(row, queue[0], env[0].0, env[0].1);
      DrainedAgrees(Some(r.value), queue[1..], history, Progress(queue[0], p), env[1..]);
    }
  }

  /** No update or creation, and no move to RESOLVED, which would set the recovery time. */
  predicate KeepsValues(w: Write) { !w.Update? && !w.Create? && (w.Transition? ==> w.target != RESOLVED) }

  lemma {:induction false} ValuesKept(row: IncidentRow, queue: seq<Write>, env: seq<(Live, int)>)
    requires |env| == |queue| && forall j :: 0 <= j < |queue| ==> KeepsValues(queue[j])
    ensures var r := Drain(Some(row), queue, env);
            r.Some? ==> r.value.Some? && r.value.value.severity == row.severity
                        && r.value.value.mttrSeconds == row.mttrSeconds
    decreases |queue|
  {
    hide CanTransition;
    if queue != [] {
      var r := DbWrite(Some(row), queue[0], env[0].0, env[0].1);
      if r.Ok? {
        ValuesKept(r.value, queue[1..], env[1..]);
      }
    }
  }

  /** What the last update of a queue read from the live object is what the drained row holds. */
  lemma {:induction false} LastUpdateStored(row: Option<IncidentRow>, queue: seq<Write>, env: seq<(Live, int)>, k: nat)
    requires |env| == |queue| && k < |queue| && queue[k].Update?
    requires forall j :: k < j < |queue| ==> KeepsValues(queue[j])
    ensures var r := Drain(row, queue, env);
            r.Some? ==>
              r.value.Some? && r.value.value.severity == env[k].0.severity
              && (env[k].0.mttr.Some? ==> r.value.value.mttrSeconds == env[k].0.mttr)
    decreases |queue|
  {
    hide CanTransition;
    var r := DbWrite(row, queue[0], env[0].0, env[0].1);
    if r.Ok? {
      if k == 0 {
        ValuesKept(r.value, queue[1..], env[1..]);
      } else {
        LastUpdateStored(Some(r.value), queue[1..], env[1..], k - 1);
      }
    }
  }

  lemma {:induction false} FollowsAppend(queue: seq<Write>, w: Write, history: seq<Core>, p: nat)
    requires Follows(queue, history, p) && history != [] && (w.Update? || w.Timeline? || w.Link?)
    ensures Follows(queue + [w], history, p)
  {
    hide CanTransition;
    if queue == [] {
      assert (queue + [w])[1..] == [];
    } else {
      assert (queue + [w])[1..] == queue[1..] + [w];
      FollowsAppend(queue[1..], w, history, Progress(queue[0], p));
    }
  }

  lemma {:induction false} FollowsTransition(queue: seq<Write>, target: State, options: Options, history: seq<Core>,
                                             next: Core, p: nat)
    requires Follows(queue, history, p) && history != []
    requires target != history[|history| - 1].state
    requires TransitionCore(history[|history| - 1], target, options) == Ok(next)
    ensures Follows(queue + [Transition(target, options)], history + [next], p)
  {
    hide CanTransition;
    var w := Transition(target, options);
    if queue == [] {
      assert (queue + [w])[1..] == [];
    } else {
      assert (queue + [w])[1..] == queue[1..] + [w];
      FollowsTransition(queue[1..], target, options, history, next, Progress(queue[0], p));
    }
  }

  // ---------------------------------------------------------------- the past of an incident

  function Changes(entries: seq<TimelineEntry>): seq<(State, State)> {
    if entries == [] then []
    else
      var e := entries[|entries| - 1];
      var before := Changes(entries[..|entries| - 1]);
      if e.Changed? then before + [(e.from, e.to)] else before
  }

  /** A legal life: from DETECTED along the table, one version per change. */
  ghost predicate LegalHistory(history: seq<Core>, changes: seq<(State, State)>) {
    history != []
    && var n := |history| - 1;
       if n == 0 then history[0].state == DETECTED && history[0].version == 1 && changes == []
       else
         |changes| == n && LegalHistory(history[..n], changes[..n - 1])
         && changes[n - 1] == (history[n - 1].state, history[n].state)
         && CanTransition(history[n - 1].state, history[n].state)
         && history[n].version == history[n - 1].version + 1 && history[n].tenantId == history[n - 1].tenantId
  }

  ghost predicate WasResolved(history: seq<Core>) {
    history != [] && (history[|history| - 1].state == RESOLVED || WasResolved(history[..|history| - 1]))
  }

  /** What a legal history says: versions count the changes, which the timeline tells in order, along the table. */
  lemma {:induction false} LegalHistoryMeans(history: seq<Core>, changes: seq<(State, State)>, i: nat)
    requires LegalHistory(history, changes) && i < |history|
    ensures history[i].version == i + 1 && history[0].state == DETECTED && |changes| == |history| - 1
    ensures history[i].state == RESOLVED ==> WasResolved(history)
    ensures i > 0 ==>
            CanTransition(history[i - 1].state, history[i].state)
            && changes[i - 1] == (history[i - 1].state, history[i].state)
    decreases |history|
  {
    hide CanTransition;
    var n := |history| - 1;
    if n > 0 {
      LegalHistoryMeans(history[..n], changes[..n - 1], if i == n then n - 1 else i);
    }
  }

  lemma ChangesAppend(entries: seq<TimelineEntry>, e: TimelineEntry)
    ensures Changes(entries + [e]) == if e.Changed? then Changes(entries) + [(e.from, e.to)] else Changes(entries)
  {
    assert (entries + [e])[..|entries|] == entries;
  }

  // ---------------------------------------------------------------- one incident, all its records

  datatype Past = Past(history: seq<Core>, reached: nat)

  /** Memory (core, resolved flag, changes told by the timeline), the queue, the row, and the past. */
  datatype Story = Story(
    core: Core,
    resolved: bool,
    changes: seq<(State, State)>,
    queue: seq<Write>,
    row: Option<IncidentRow>,
    history: seq<Core>,
    reached: nat)

  ghost predicate Consistent(s: Story) {
    LegalHistory(s.history, s.changes) && s.history[|s.history| - 1] == s.core
    && Follows(s.queue, s.history, s.reached) && RowAt(s.row, s.history, s.reached)
    && (s.resolved <==> WasResolved(s.history))
  }

  function CreatedStory(tenantId: string, severity: Severity): Story {
    var c := Core(tenantId, DETECTED, 1);
    Story(c, false, [], [Create(tenantId, severity)], None, [c], 0)
  }

  lemma CreatedConsistent(tenantId: string, severity: Severity)
    requires tenantId != ""
    ensures Consistent(CreatedStory(tenantId, severity)) && Changes([]) == []
  {
    var queue := [Create(tenantId, severity)];
    assert queue[1..] == [] && Follows([], [Core(tenantId, DETECTED, 1)], 1);
  }

  function Queued(s: Story, w: Write): Story { s.(queue := s.queue + [w]) }

  lemma QueuedConsistent(s: Story, w: Write)
    requires Consistent(s) && (w.Update? || w.Timeline? || w.Link?)
    ensures Consistent(Queued(s, w))
  {
    FollowsAppend(s.queue, w, s.history, s.reached);
  }

  lemma {:induction false} LegalAppend(history: seq<Core>, changes: seq<(State, State)>, target: State,
      options: Options)
    requires LegalHistory(history, changes)
    requires var c := history[|history| - 1]; TransitionCore(c, target, options).Ok? && c.state != target
    ensures var c := history[|history| - 1];
            LegalHistory(history + [TransitionCore(c, target, options).value], changes + [(c.state, target)])
  {
    hide CanTransition;
    var c := history[|history| - 1];
    var h, d := history + [TransitionCore(c, target, options).value], changes + [(c.state, target)];
    LegalHistoryMeans(history, changes, 0);
    assert h[..|h| - 1] == history && d[..|d| - 1] == changes;
  }

  lemma ResolvedAppend(history: seq<Core>, c: Core)
    ensures WasResolved(history + [c]) <==> WasResolved(history) || c.state == RESOLVED
  {
    assert (history + [c])[..|history|] == history;
  }

  function Moved(s: Story, target: State, options: Options): Story {
    var next := Core(s.core.tenantId, target, s.core.version + 1);
    s.(core := next, resolved := s.resolved || target == RESOLVED, changes := s.changes + [(s.core.state, target)],
       queue := s.queue + [Timeline, Transition(target, options)], history := s.history + [next])
  }

  lemma {:induction false} MovedConsistent(s: Story, target: State, options: Options)
    requires Consistent(s) && TransitionCore(s.core, target, options).Ok? && s.core.state != target
    ensures Consistent(Moved(s, target, options))
    ensures TransitionCore(s.core, target, options) == Ok(Moved(s, target, options).core)
  {
    hide CanTransition;
    var next := TransitionCore(s.core, target, options).value;
    FollowsAppend(s.queue, Timeline, s.history, s.reached);
    FollowsTransition(s.queue + [Timeline], target, options, s.history, next, s.reached);
    LegalAppend(s.history, s.changes, target, options);
    ResolvedAppend(s.history, next);
    assert s.queue + [Timeline] + [Transition(target, options)] == s.queue + [Timeline, Transition(target, options)];
  }

  function Written(s: Story, live: Live, now: int): Result<Story, Refusal>
    requires s.queue != []
  {
    var r := DbWrite(s.row, s.queue[0], live, now);
    if r.Err? then Err(r.error)
    else Ok(s.(queue := s.queue[1..], row := Some(r.value), reached := Progress(s.queue[0], s.reached)))
  }

  /** A queued write is never refused, and leaves the row at a point of memory's past; at the end, at the present. */
  lemma WrittenConsistent(s: Story, live: Live, now: int)
    requires Consistent(s) && s.queue != []
    ensures var r := Written(s, live, now);
            r.Ok? && Consistent(r.value) && r.value.row.Some?
            && CoreOf(r.value.row.value) in s.history
            && (r.value.queue == [] ==> CoreOf(r.value.row.value) == s.core)
  {
    hide CanTransition;
    DbWriteFollows(s.row, s.queue, s.history, s.reached, live, now);
  }

  /** The past fixes the present. */
  lemma SamePastSameCore(s: Story, t: Story)
    requires Consistent(s) && Consistent(t) && s.history == t.history
    ensures s.core == t.core && s.resolved == t.resolved
  {
  }

  /**
    What a handed-back object in another state, version or tenant does: the queued update is accepted like any other and
    moves nothing, so once the queue has drained the row still differs from that object.
   */
  lemma {:induction false} StaleUpdateDiverges(s: Story, incident: Incident, core: Core, env: seq<(Live, int)>)
    requires Consistent(s) && core != s.core && |env| == |s.queue| + 1
    ensures var r := Drain(s.row, s.queue + [Update(incident)], env);
            r.Some? && r.value.Some? && CoreOf(r.value.value) == s.core != core
  {
    FollowsAppend(s.queue, Update(incident), s.history, s.reached);
    DrainedAgrees(s.row, s.queue + [Update(incident)], s.history, s.reached, env);
  }

  // ---------------------------------------------------------------- the repository

  class IncidentRepository {
    var incidents: map<string, Incident>
    var timeline: map<string, seq<TimelineEntry>>
    var queues: map<string, seq<Write>>
    const db: IncidentTable
    /** Per incident: the cores of memory so far, and how many of them the database has reached. */
    ghost var past: map<string, Past>

    ghost predicate Known(id: string)
      reads this
    {
      id in incidents && id in timeline && id in queues && id in past
    }

    ghost function StoryOf(id: string): Story
      requires Known(id)
      reads this, incidents[id], db
    {
      Story(incidents[id].TheCore(), incidents[id].resolvedAt.Some?, Changes(timeline[id]), queues[id],
            Find(db.rows, id), past[id].history, past[id].reached)
    }

    ghost predicate Sound(id: string)
      requires id in incidents
      reads this, incidents[id], db
    {
      Known(id) && incidents[id].id == id && Consistent(StoryOf(id))
    }

    ghost predicate Valid()
      reads this, incidents.Values, db
    {
      (forall id {:trigger Sound(id)} :: id in incidents ==> Sound(id))
      && (forall id :: id in db.rows ==> id in incidents)
    }

    constructor ()
      ensures Valid() && fresh(db) && incidents == map[]
    {
      incidents, timeline, queues, past := map[], map[], map[], map[];
      db := new IncidentTable();
    }

    /** Neither the creation nor a transition: a write that the database accepts in any state. */
    method QueueDbWrite(id: string, w: Write)
      requires w.Update? || w.Timeline? || w.Link?
      modifies this`queues
      ensures old(Valid()) ==> Valid()
      ensures queues == old(queues)[id := (if id in old(queues) then old(queues)[id] else []) + [w]]
    {
      hide Consistent, Changes;
      ghost var valid := Valid();
      if valid && id in incidents {
        assert Sound(id);
        QueuedConsistent(StoryOf(id), w);
      }
      queues := queues[id := (if id in queues then queues[id] else []) + [w]];
      if valid {
        assert id in incidents ==> StoryOf(id) == Queued(old(StoryOf(id)), w);
        forall i | i in incidents && i != id ensures Sound(i) {
          assert old(Sound(i));
        }
      }
    }

    /** Memory is told first; the write joins the queue. */
    method AddTimelineEntry(id: string, e: TimelineEntry)
      requires Valid() && !e.Changed?
      modifies this`timeline, this`queues
      ensures Valid()
      ensures timeline == old(timeline)[id := (if id in old(timeline) then old(timeline)[id] else []) + [e]]
      ensures queues == old(queues)[id := (if id in old(queues) then old(queues)[id] else []) + [Timeline]]
    {
      hide Consistent, Changes;
      ChangesAppend(if id in timeline then timeline[id] else [], e);
      timeline := timeline[id := (if id in timeline then timeline[id] else []) + [e]];
      forall i | i in incidents ensures Sound(i) {
        assert old(Sound(i)) && StoryOf(i) == old(StoryOf(i));
      }
      QueueDbWrite(id, Timeline);
    }

    /** `id` is a fresh UUID. Without a tenant the default one is taken. */
    method CreateIncident(id: string, tenantId: string, severity: Severity, eventIds: seq<string>, now: int)
      returns (incident: Incident)
      requires Valid() && id !in incidents && id !in queues
      modifies this
      ensures Valid() && fresh(incident) && incidents == old(incidents)[id := incident]
      ensures past == old(past)[id := Past([incident.TheCore()], 0)] && incident.state == DETECTED
      ensures incident.version == 1
      ensures queues == old(queues)[id :=
              [Create(incident.tenantId, severity), Timeline] + if eventIds == [] then [] else [Timeline]]
    {
      hide Consistent, Changes;
      incident := new Incident(id, if tenantId == "" then "tenant-default" else tenantId, severity, eventIds, now);
      Register(incident);
      AddTimelineEntry(id, Opened);
      if eventIds != [] {
        AddTimelineEntry(id, Note("Triggering Signal"));
      }
      assert queues == old(queues)[id := queues[id]];
      assert queues[id] == [Create(incident.tenantId, severity), Timeline] + if eventIds == [] then [] else [Timeline];
    }

    /** The maps take the new incident, and its creation is the first write of its queue. */
    method Register(incident: Incident)
      requires Valid() && incident.id !in incidents && incident.id !in queues && incident !in incidents.Values
      requires incident.TheCore() == Core(incident.tenantId, DETECTED, 1) && incident.tenantId != ""
      requires incident.resolvedAt.None?
      modifies this
      ensures Valid() && incidents == old(incidents)[incident.id := incident]
      ensures past == old(past)[incident.id := Past([incident.TheCore()], 0)]
      ensures queues == old(queues)[incident.id := [Create(incident.tenantId, incident.severity)]]
    {
      hide Consistent, Changes;
      var id := incident.id;
      incidents := incidents[id := incident];
      timeline := timeline[id := []];
      queues := queues[id := [Create(incident.tenantId, incident.severity)]];
      past := past[id := Past([incident.TheCore()], 0)];
      CreatedConsistent(incident.tenantId, incident.severity);
      assert StoryOf(id) == CreatedStory(incident.tenantId, incident.severity);
      forall i | i in incidents && i != id ensures Sound(i) {
        assert old(Sound(i));
      }
    }

    /** The state change of memory, with its timeline entry and queued writes. */
    method TransitionState(id: string, target: State, options: Options, now: int) returns (r: Result<Incident, Refusal>)
      requires Valid()
      modifies this, incidents.Values
      ensures Valid() && incidents == old(incidents)
      ensures forall x :: x in incidents.Values && (id in incidents ==> x != incidents[id]) ==> unchanged(x)
      ensures id !in incidents ==> r == Err(NotFound)
      ensures id in incidents && TransitionCore(old(incidents[id].TheCore()), target, options).Err? ==>
                r == Err(TransitionCore(old(incidents[id].TheCore()), target, options).error)
      ensures r.Err? || old(incidents[id].state) == target ==>
                past == old(past) && queues == old(queues) && timeline == old(timeline)
                && forall x :: x in incidents.Values ==> unchanged(x)
      ensures id in incidents && TransitionCore(old(incidents[id].TheCore()), target, options).Ok? ==>
                r == Ok(incidents[id]) && old(Known(id))
                && incidents[id].TheCore() == TransitionCore(old(incidents[id].TheCore()), target, options).value
                && (old(incidents[id].state) != target ==>
                      queues == old(queues)[id := old(queues[id]) + [Timeline, Transition(target, options)]]
                      && timeline == old(timeline)[id :=
                              old(timeline[id]) + [Changed(old(incidents[id].state), target)]])
      ensures id in incidents && old(incidents[id].resolvedAt).Some? ==>
              incidents[id].resolvedAt == old(incidents[id].resolvedAt)
    {
      hide Consistent, Changes;
      if id !in incidents {
        return Err(NotFound);
      }
      assert Sound(id);
      var incident := incidents[id];
      if options.tenantId != "" && incident.tenantId != options.tenantId {
        return Err(TenantForbidden);
      }
      if options.expectedVersion.Some? && incident.version != options.expectedVersion.value {
        return Err(StaleState);
      }
      if incident.state == target {
        return Ok(incident);
      }
      if !CanTransition(incident.state, target) {
        return Err(IllegalTransition);
      }
      ApplyTransition(incident, target, options, now);
      return Ok(incident);
    }

    method ApplyTransition(incident: Incident, target: State, options: Options, now: int)
      requires Valid() && incident.id in incidents && incidents[incident.id] == incident
      requires TransitionCore(incident.TheCore(), target, options).Ok? && incident.state != target
      modifies this`timeline, this`queues, this`past, incident
      ensures Valid() && incident.TheCore() == TransitionCore(old(incident.TheCore()), target, options).value
      ensures old(Known(incident.id))
      ensures queues == old(queues)[incident.id := old(queues[incident.id]) + [Timeline, Transition(target, options)]]
      ensures timeline == old(timeline)[incident.id :=
              old(timeline[incident.id]) + [Changed(old(incident.state), target)]]
      ensures old(incident.resolvedAt).Some? ==> incident.resolvedAt == old(incident.resolvedAt)
    {
      hide Consistent, Changes, TransitionCore;
      var id := incident.id;
      var previousState := incident.state;
      assert Sound(id);
      MovedConsistent(StoryOf(id), target, options);
      ChangesAppend(timeline[id], Changed(previousState, target));
      incident.MoveTo(target, now);
      timeline := timeline[id := timeline[id] + [Changed(previousState, target)]];
      queues := queues[id := queues[id] + [Timeline, Transition(target, options)]];
      past := past[id := Past(past[id].history + [incident.TheCore()], past[id].reached)];
      assert StoryOf(id) == Moved(old(StoryOf(id)), target, options);
      forall i | i in incidents && i != id ensures Sound(i) {
        assert old(Sound(i));
      }
    }

    method LinkEvent(id: string, eventId: string)
      requires Valid()
      modifies this`timeline, this`queues, incidents.Values
      ensures Valid()
      ensures id !in incidents ==> queues == old(queues)
      ensures id in incidents ==>
                incidents[id].eventIds == (if eventId in old(incidents[id].eventIds) then old(incidents[id].eventIds)
                                           else old(incidents[id].eventIds) + [eventId])
                && old(Known(id)) && queues == old(queues)[id := old(queues[id]) + [Timeline, Link]]
    {
      hide Consistent, Changes;
      if id !in incidents {
        return;
      }
      assert Sound(id);
      incidents[id].AddEvent(eventId);
      forall i | i in incidents ensures Sound(i) {
        assert old(Sound(i));
      }
      AddTimelineEntry(id, Note("Correlated Event"));
      QueueDbWrite(id, Link);
      assert old(queues[id]) + [Timeline] + [Link] == old(queues[id]) + [Timeline, Link];
    }

    /**
      Any object may be handed back. Memory stays in step with what is queued exactly when its tenant, state and
      version, and whether it was resolved, are those of the object it replaces. Handing back that object itself
      is one such case.
     */
    method UpdateIncident(incident: Incident, now: int)
      requires Valid()
      modifies this`incidents, this`queues, incident`updatedAt
      ensures incidents == old(incidents)[incident.id := incident] && timeline == old(timeline) && past == old(past)
      ensures var id := incident.id;
              queues == old(queues)[id := (if id in old(queues) then old(queues)[id] else []) + [Update(incident)]]
      ensures old(incident.id in incidents) ==>
                (Valid() <==> old(incident.TheCore() == incidents[incident.id].TheCore()
                                  && incident.resolvedAt.Some? == incidents[incident.id].resolvedAt.Some?))
    {
      hide Consistent, Changes;
      var id := incident.id;
      ghost var same := id in incidents && incident.TheCore() == incidents[id].TheCore()
                        && incident.resolvedAt.Some? == incidents[id].resolvedAt.Some?;
      ghost var before: Story;
      if id in incidents {
        assert Sound(id);
        before := StoryOf(id);
      }
      incident.updatedAt := now;
      incidents := incidents[id := incident];
      if same {
        forall i | i in incidents ensures Sound(i) {
          assert old(Sound(i)) && StoryOf(i) == old(StoryOf(i));
        }
      }
      QueueDbWrite(id, Update(incident));
      if old(id in incidents) && Valid() {
        assert Sound(id);
        SamePastSameCore(before, StoryOf(id));
      }
    }

    /** One queued write runs against the database, reading the live object as it is by now. */
    method RunWrite(id: string, now: int) returns (refused: bool)
      requires Valid() && Known(id) && queues[id] != []
      modifies this`queues, this`past, db
      ensures Valid() && Known(id) && !refused && queues == old(queues)[id := old(queues[id])[1..]]
      ensures id in db.rows && CoreOf(db.rows[id]) in past[id].history
      ensures queues[id] == [] ==> CoreOf(db.rows[id]) == incidents[id].TheCore()
    {
      hide Consistent, Changes;
      assert Sound(id);
      var w := queues[id][0];
      ghost var live :=
        if w.Update? then Live(w.incident.state, w.incident.severity, w.incident.mttrSeconds)
        else Live(DETECTED, SEV_1, None);
      WrittenConsistent(StoryOf(id), live, now);
      refused := Send(id, w, now, live);
      queues := queues[id := queues[id][1..]];
      past := past[id := Past(past[id].history, Progress(w, past[id].reached))];
      assert StoryOf(id) == Written(old(StoryOf(id)), live, now).value;
      forall i | i in incidents && i != id ensures Sound(i) {
        assert old(Sound(i));
      }
    }

    /** The database call of one write. */
    method Send(id: string, w: Write, now: int, ghost live: Live) returns (refused: bool)
      requires w.Update? ==> live == Live(w.incident.state, w.incident.severity, w.incident.mttrSeconds)
      modifies db
      ensures refused == DbWrite(Find(old(db.rows), id), w, live, now).Err?
      ensures db.rows == Store(old(db.rows), id, DbWrite(Find(old(db.rows), id), w, live, now))
    {
      var r: Result<IncidentRow, Refusal>;
      match w {
        case Create(tenantId, severity) =>
          r := db.CreateIncident(id, tenantId, severity, now);
        case Transition(target, options) =>
          r := db.TransitionState(id, target, options, now);
        case Update(incident) =>
          r := db.UpdateIncident(id, incident.state, incident.severity, incident.mttrSeconds);
        case _ =>
          r := if id in db.rows then Ok(db.rows[id]) else Err(NotFound);
          assert id in db.rows ==> db.rows == db.rows[id := db.rows[id]];
      }
      refused := r.Err?;
    }
  }
}
