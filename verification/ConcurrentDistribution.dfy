/**
  Several distributions at once over one set of subscriptions. Every lock acquisition of the
  distribution loop is a step of its own, tasks are scheduled in any order, and all of them
  overwrite the same last-seen markers.
 */
module ConcurrentDistribution {
  import opened Nostr
  import opened IndexModel
  import opened IndexRefinement
  import opened IndexHistory
  import opened SubscriptionIndexes

  /** The lock acquisition a task performs next for the candidate it is at. */
  datatype Phase = CheckFilter | MarkFilter | CheckGroup | MarkGroup

  /** One `distribute_event` call: its event, its candidates, and its local variables. */
  datatype Task = Task(event: Event, candidates: seq<Tracked>, pos: nat, phase: Phase, checked: set<Key>,
                       result: seq<Key>) {
    predicate Finished() { pos >= |candidates| }

    function Next(): (t: Task) { this.(pos := pos + 1, phase := CheckFilter) }
  }

  /** The shared markers and the tasks. */
  datatype State = State(filterSeen: map<FilterId, EventId>, groupSeen: map<Key, EventId>, tasks: seq<Task>)

  /** One step of an unfinished task: its new local state, and its effect on the markers. */
  function TaskStep(s: State, t: Task): (r: (Task, map<FilterId, EventId>, map<Key, EventId>))
    requires !t.Finished()
  {
    var c := t.candidates[t.pos];
    match t.phase
    case CheckFilter =>
      if (c.id in s.filterSeen && s.filterSeen[c.id] == t.event.id) || !Matches(c.filter, t.event)
      then (t.Next(), s.filterSeen, s.groupSeen)
      else (t.(phase := MarkFilter), s.filterSeen, s.groupSeen)
    case MarkFilter =>
      ((if c.owner in t.checked then t.Next() else t.(checked := t.checked + {c.owner}, phase := CheckGroup)),
       s.filterSeen[c.id := t.event.id], s.groupSeen)
    case CheckGroup =>
      ((if c.owner in s.groupSeen && s.groupSeen[c.owner] == t.event.id then t.Next() else t.(phase := MarkGroup)),
       s.filterSeen, s.groupSeen)
    case MarkGroup =>
      (t.Next().(result := t.result + [c.owner]), s.filterSeen, s.groupSeen[c.owner := t.event.id])
  }

  function Step(s: State, i: nat): (r: State)
  {
    if i < |s.tasks| && !s.tasks[i].Finished() then
      var (t, fs, gs) := TaskStep(s, s.tasks[i]);
      State(fs, gs, s.tasks[i := t])
    else s
  }

  function Run(s: State, schedule: seq<nat>): (r: State)
  {
    if schedule == [] then s else Step(Run(s, schedule[..|schedule| - 1]), schedule[|schedule| - 1])
  }

  // ----- What a task must report -----

  /** The owners of the matching candidates, each at its first occurrence. */
  function Report(cs: seq<Tracked>, e: Event): (r: seq<Key>)
    decreases |cs|
  {
    if cs == [] then []
    else
      var r, last := Report(cs[..|cs| - 1], e), cs[|cs| - 1];
      if Matches(last.filter, e) && last.owner !in r then r + [last.owner] else r
  }

  lemma {:induction false} ReportElements(cs: seq<Tracked>, e: Event)
    ensures NoDuplicates(Report(cs, e))
    ensures forall key :: key in Report(cs, e) <==>
            exists i :: 0 <= i < |cs| && Matches(cs[i].filter, e) && cs[i].owner == key
    decreases |cs|
  {
    if cs != [] {
      var init := cs[..|cs| - 1];
      ReportElements(init, e);
      forall key
        ensures key in Report(cs, e) <==> exists i :: 0 <= i < |cs| && Matches(cs[i].filter, e) && cs[i].owner == key
      {
        if key in Report(init, e) {
          var i :| 0 <= i < |init| && Matches(init[i].filter, e) && init[i].owner == key;
          assert cs[i] == init[i];
        }
        if i :| 0 <= i < |cs| && Matches(cs[i].filter, e) && cs[i].owner == key {
          if i < |init| { assert init[i] == cs[i]; }
        }
      }
    }
  }

  // ----- The invariant of every interleaving -----

  /** The task has written its marker on the filter of candidate `j`. */
  predicate Passed(t: Task, j: nat)
  {
    j < t.pos || (j == t.pos && (t.phase.CheckGroup? || t.phase.MarkGroup?))
  }

  ghost predicate LocalOk(t: Task)
  {
    && t.pos <= |t.candidates|
    && (forall i, j :: 0 <= i < j < |t.candidates| ==> t.candidates[i].id != t.candidates[j].id)
    && t.result == Report(t.candidates[..t.pos], t.event)
    && (t.phase != CheckFilter ==> t.pos < |t.candidates| && Matches(t.candidates[t.pos].filter, t.event))
    && (if t.phase.CheckGroup? || t.phase.MarkGroup?
        then t.candidates[t.pos].owner !in t.result && t.checked == Elements(t.result) + {t.candidates[t.pos].owner}
        else t.checked == Elements(t.result))
  }

  /** Only the task itself ever writes its event id. */
  ghost predicate MarkersOk(fs: map<FilterId, EventId>, gs: map<Key, EventId>, t: Task)
  {
    && (forall id | id in fs && fs[id] == t.event.id ::
          exists j :: 0 <= j < |t.candidates| && t.candidates[j].id == id && Passed(t, j))
    && (forall key | key in gs && gs[key] == t.event.id :: key in t.result)
  }

  ghost predicate Inv(s: State)
  {
    && (forall i, j :: 0 <= i < j < |s.tasks| ==> s.tasks[i].event.id != s.tasks[j].event.id)
    && (forall i | 0 <= i < |s.tasks| :: LocalOk(s.tasks[i]) && MarkersOk(s.filterSeen, s.groupSeen, s.tasks[i]))
  }

  /** A task writes its event only on filters it passes. */
  lemma OwnFilterMarkers(s: State, t: Task, id: FilterId)
    requires !t.Finished() && LocalOk(t) && MarkersOk(s.filterSeen, s.groupSeen, t)
    requires var (_, fs, _) := TaskStep(s, t); id in fs && fs[id] == t.event.id
    ensures var (t', _, _) := TaskStep(s, t);
            exists j :: 0 <= j < |t'.candidates| && t'.candidates[j].id == id && Passed(t', j)
  {
    var (t', _, _) := TaskStep(s, t);
    if id in s.filterSeen && s.filterSeen[id] == t.event.id {
      var j :| 0 <= j < |t.candidates| && t.candidates[j].id == id && Passed(t, j);
      assert Passed(t', j);
    } else {
      assert t'.candidates[t.pos].id == id && Passed(t', t.pos);
    }
  }

  /** A task never finds its own event on the markers it checks, so it moves as the sequential loop does. */
  lemma OwnStep(s: State, t: Task)
    requires !t.Finished() && LocalOk(t) && MarkersOk(s.filterSeen, s.groupSeen, t)
    ensures var (t', fs, gs) := TaskStep(s, t);
            t'.event == t.event && t'.candidates == t.candidates && LocalOk(t') && MarkersOk(fs, gs, t')
  {
    PrefixNext(t.candidates, t.pos);
    forall id | id in TaskStep(s, t).1 && TaskStep(s, t).1[id] == t.event.id { OwnFilterMarkers(s, t, id); }
  }

  lemma OtherStep(s: State, t: Task, other: Task)
    requires !t.Finished() && t.event.id != other.event.id && MarkersOk(s.filterSeen, s.groupSeen, other)
    ensures var (_, fs, gs) := TaskStep(s, t); MarkersOk(fs, gs, other)
  {
  }

  lemma StepInv(s: State, i: nat)
    requires Inv(s)
    ensures Inv(Step(s, i)) && |Step(s, i).tasks| == |s.tasks|
    ensures forall k | 0 <= k < |s.tasks| ::
              Step(s, i).tasks[k].event == s.tasks[k].event && Step(s, i).tasks[k].candidates == s.tasks[k].candidates
  {
    if i < |s.tasks| && !s.tasks[i].Finished() {
      OwnStep(s, s.tasks[i]);
      forall k | 0 <= k < |s.tasks| && k != i
        ensures MarkersOk(Step(s, i).filterSeen, Step(s, i).groupSeen, s.tasks[k])
      {
        OtherStep(s, s.tasks[i], s.tasks[k]);
      }
    }
  }

  lemma {:induction false} RunInv(s: State, schedule: seq<nat>)
    requires Inv(s)
    ensures Inv(Run(s, schedule))
    ensures |Run(s, schedule).tasks| == |s.tasks|
    ensures forall i | 0 <= i < |s.tasks| ::
              Run(s, schedule).tasks[i].event == s.tasks[i].event &&
              Run(s, schedule).tasks[i].candidates == s.tasks[i].candidates
    decreases |schedule|
  {
    if schedule != [] {
      RunInv(s, schedule[..|schedule| - 1]);
      StepInv(Run(s, schedule[..|schedule| - 1]), schedule[|schedule| - 1]);
    }
  }

  // ----- Every interleaving agrees with the scan -----

  /** The candidates of an event: each live candidate filter once, in some order. */
  ghost predicate CandidatesOf(ix: Index, e: Event, cs: seq<Tracked>)
  {
    && (forall i, j :: 0 <= i < j < |cs| ==> cs[i].id != cs[j].id)
    && (forall t :: t in cs <==> Live(ix, t) && IsCandidate(t, e))
  }

  function Begin(e: Event, cs: seq<Tracked>): (t: Task)
  {
    Task(e, cs, 0, CheckFilter, {}, [])
  }

  function Markings(groups: map<Key, Group>): (m: map<Key, EventId>)
  {
    map key | key in groups && groups[key].lastSeen.Some? :: groups[key].lastSeen.value
  }

  function Start(ix: Index, tasks: seq<Task>): (s: State)
  {
    State(ix.filterSeen, Markings(ix.groups), tasks)
  }

  /** Calls for new, pairwise different events, about to begin over the subscriptions of `ix`. */
  ghost predicate FreshCalls(ix: Index, tasks: seq<Task>)
  {
    && (forall i | 0 <= i < |tasks| ::
          tasks[i] == Begin(tasks[i].event, tasks[i].candidates) &&
          CandidatesOf(ix, tasks[i].event, tasks[i].candidates) &&
          tasks[i].event.id !in Markers(ix))
    && (forall i, j :: 0 <= i < j < |tasks| ==> tasks[i].event.id != tasks[j].event.id)
  }

  lemma StartInv(ix: Index, tasks: seq<Task>)
    requires FreshCalls(ix, tasks)
    ensures Inv(Start(ix, tasks))
  {
    forall i | 0 <= i < |tasks| ensures LocalOk(tasks[i]) && MarkersOk(ix.filterSeen, Markings(ix.groups), tasks[i]) {
      assert tasks[i].candidates[..0] == [];
    }
  }

  lemma ReportIsScan(ix: Index, e: Event, cs: seq<Tracked>)
    requires Valid(ix) && CandidatesOf(ix, e, cs)
    ensures Elements(Report(cs, e)) == LinearScan(Contents(ix), e)
  {
    ReportElements(cs, e);
    forall key ensures key in Report(cs, e) <==> key in LinearScan(Contents(ix), e) {
      if key in ix.groups { ListFiltersMatch(ix.all, ix.groups[key].ids, e); }
      if key in Report(cs, e) {
        var i :| 0 <= i < |cs| && Matches(cs[i].filter, e) && cs[i].owner == key;
        assert cs[i] in cs && Live(ix, cs[i]);
      }
      if key in LinearScan(Contents(ix), e) {
        var id :| id in ix.groups[key].ids && id in ix.all && Matches(ix.all[id].filter, e);
        MatchIsCandidate(ix.all[id], e);
        assert Live(ix, ix.all[id]) && ix.all[id] in cs && ix.all[id].owner == key;
      }
    }
  }

  /**
    However the calls interleave, a call that has finished reports, once each, exactly the
    subscriptions a scan of all live filters finds for its own event.
   */
  lemma InterleavedDistributionIsScan(ix: Index, tasks: seq<Task>, schedule: seq<nat>, i: nat)
    requires Valid(ix) && FreshCalls(ix, tasks) && i < |tasks|
    ensures var end := Run(Start(ix, tasks), schedule);
            && |end.tasks| == |tasks|
            && (end.tasks[i].Finished() ==>
                  NoDuplicates(end.tasks[i].result) &&
                  Elements(end.tasks[i].result) == LinearScan(Contents(ix), tasks[i].event))
  {
    StartInv(ix, tasks);
    RunInv(Start(ix, tasks), schedule);
    var t := Run(Start(ix, tasks), schedule).tasks[i];
    if t.Finished() {
      assert t.candidates[..t.pos] == tasks[i].candidates;
      ReportElements(tasks[i].candidates, tasks[i].event);
      ReportIsScan(ix, tasks[i].event, tasks[i].candidates);
    }
  }

  // ----- Progress -----

  /** An upper bound on the steps a task has left. */
  function Work(t: Task): (n: int)
  {
    4 * (|t.candidates| - t.pos) -
    match t.phase case CheckFilter => 0 case MarkFilter => 1 case CheckGroup => 2 case MarkGroup => 3
  }

  function Turns(schedule: seq<nat>, i: nat): (n: nat)
  {
    if schedule == [] then 0
    else Turns(schedule[..|schedule| - 1], i) + if schedule[|schedule| - 1] == i then 1 else 0
  }

  lemma StepProgress(s: State, k: nat, i: nat)
    requires Inv(s) && i < |s.tasks| && !Step(s, k).tasks[i].Finished()
    ensures !s.tasks[i].Finished() && Work(Step(s, k).tasks[i]) + (if k == i then 1 else 0) <= Work(s.tasks[i])
  {
  }

  lemma {:induction false} RunProgress(s: State, schedule: seq<nat>, i: nat)
    requires Inv(s) && i < |s.tasks|
    ensures |Run(s, schedule).tasks| == |s.tasks|
    ensures Run(s, schedule).tasks[i].Finished() ||
            Work(Run(s, schedule).tasks[i]) + Turns(schedule, i) <= Work(s.tasks[i])
    decreases |schedule|
  {
    if schedule != [] {
      var init := schedule[..|schedule| - 1];
      RunInv(s, init);
      RunProgress(s, init, i);
      if !Run(s, schedule).tasks[i].Finished() { StepProgress(Run(s, init), schedule[|schedule| - 1], i); }
    }
  }

  /** A call given four turns per candidate has finished, whatever the others do. */
  lemma EnoughTurnsFinish(ix: Index, tasks: seq<Task>, schedule: seq<nat>, i: nat)
    requires Valid(ix) && FreshCalls(ix, tasks) && i < |tasks|
    requires Turns(schedule, i) >= 4 * |tasks[i].candidates|
    ensures var end := Run(Start(ix, tasks), schedule); |end.tasks| == |tasks| && end.tasks[i].Finished()
  {
    StartInv(ix, tasks);
    RunInv(Start(ix, tasks), schedule);
    RunProgress(Start(ix, tasks), schedule, i);
  }

  // ----- A call that runs alone -----

  /** The filters of the list that count for the event, and their owners. */
  function HitIds(ix: Index, e: Event, done: seq<Tracked>): (ids: set<FilterId>)
  {
    set i | 0 <= i < |done| && Hits(ix, done[i], e) :: done[i].id
  }

  function HitOwners(ix: Index, e: Event, done: seq<Tracked>): (keys: set<Key>)
  {
    set i | 0 <= i < |done| && Hits(ix, done[i], e) :: done[i].owner
  }

  /** The shared markers after some filters and groups were marked. */
  ghost predicate MarkersAre(ix: Index, e: Event, hit: set<FilterId>, r: seq<Key>, fs: map<FilterId, EventId>,
                             gs: map<Key, EventId>)
  {
    fs == MarkIds(ix.filterSeen, hit, e.id) && gs == Markings(MarkGroups(ix.groups, Elements(r), e.id))
  }

  /** The loop has gone through these filters. */
  ghost predicate Through(ix: Index, e: Event, done: seq<Tracked>, checked: set<Key>, r: seq<Key>,
                          fs: map<FilterId, EventId>, gs: map<Key, EventId>)
  {
    var hit, owners := HitIds(ix, e, done), HitOwners(ix, e, done);
    checked == owners && LoopState(ix, e, done, hit, owners, r) && MarkersAre(ix, e, hit, r, fs, gs)
  }

  /** The loop has gone through these filters, has marked the next one, and is at its group. */
  ghost predicate AtGroup(ix: Index, e: Event, done: seq<Tracked>, c: Tracked, checked: set<Key>, r: seq<Key>,
                          fs: map<FilterId, EventId>, gs: map<Key, EventId>)
  {
    var hit, owners := HitIds(ix, e, done), HitOwners(ix, e, done);
    && checked == owners + {c.owner} && c.owner !in owners && Hits(ix, c, e)
    && LoopState(ix, e, done, hit, owners, r) && MarkersAre(ix, e, hit + {c.id}, r, fs, gs)
  }

  /** The task and the markers are where the distribution loop is. */
  ghost predicate InStep(ix: Index, fs: map<FilterId, EventId>, gs: map<Key, EventId>, t: Task)
  {
    t.pos <= |t.candidates| &&
    forall n: nat {:trigger Unfold(n)} :: Unfold(n) ==> WhereItIs(ix, fs, gs, t)
  }

  ghost predicate WhereItIs(ix: Index, fs: map<FilterId, EventId>, gs: map<Key, EventId>, t: Task)
    requires t.pos <= |t.candidates|
  {
    var done := t.candidates[..t.pos];
    if t.phase.CheckFilter? then Through(ix, t.event, done, t.checked, t.result, fs, gs)
    else if t.Finished() then false
    else if t.phase.MarkFilter? then
      Hits(ix, t.candidates[t.pos], t.event) && Through(ix, t.event, done, t.checked, t.result, fs, gs)
    else
      && AtGroup(ix, t.event, done, t.candidates[t.pos], t.checked, t.result, fs, gs)
      && (t.phase.MarkGroup? ==> !GroupSaw(ix, t.candidates[t.pos].owner, t.event.id))
  }

  lemma HitNext(ix: Index, e: Event, done: seq<Tracked>, t: Tracked)
    ensures HitIds(ix, e, done + [t]) == HitIds(ix, e, done) + if Hits(ix, t, e) then {t.id} else {}
    ensures HitOwners(ix, e, done + [t]) == HitOwners(ix, e, done) + if Hits(ix, t, e) then {t.owner} else {}
  {
    var all := done + [t];
    assert all[|done|] == t && forall i | 0 <= i < |done| :: all[i] == done[i];
    forall id | id in HitIds(ix, e, done) ensures id in HitIds(ix, e, all) {
      var i :| 0 <= i < |done| && Hits(ix, done[i], e) && done[i].id == id;
      assert all[i].id == id;
    }
    forall key | key in HitOwners(ix, e, done) ensures key in HitOwners(ix, e, all) {
      var i :| 0 <= i < |done| && Hits(ix, done[i], e) && done[i].owner == key;
      assert all[i].owner == key;
    }
    if Hits(ix, t, e) { assert all[|done|].id in HitIds(ix, e, all) && all[|done|].owner in HitOwners(ix, e, all); }
  }

  lemma MarkingsMore(g: map<Key, Group>, r: seq<Key>, key: Key, e: EventId)
    requires key in g
    ensures Markings(MarkGroups(g, Elements(r), e))[key := e] == Markings(MarkGroups(g, Elements(r + [key]), e))
  {
    assert Elements(r + [key]) == Elements(r) + {key};
  }

  /** As long as the loop has not come to a filter, its markers are those of the index. */
  lemma OwnFilterMarker(ix: Index, e: Event, done: seq<Tracked>, c: Tracked, checked: set<Key>, r: seq<Key>,
                        fs: map<FilterId, EventId>, gs: map<Key, EventId>)
    requires Through(ix, e, done, checked, r, fs, gs) && forall i | 0 <= i < |done| :: done[i].id != c.id
    ensures (c.id in fs && fs[c.id] == e.id) <==> FilterSaw(ix, c.id, e.id)
  {
  }

  lemma OwnGroupMarker(ix: Index, e: Event, done: seq<Tracked>, c: Tracked, checked: set<Key>, r: seq<Key>,
                       fs: map<FilterId, EventId>, gs: map<Key, EventId>)
    requires AtGroup(ix, e, done, c, checked, r, fs, gs)
    ensures (c.owner in gs && gs[c.owner] == e.id) <==> GroupSaw(ix, c.owner, e.id)
  {
  }

  lemma ThroughSkip(ix: Index, e: Event, done: seq<Tracked>, c: Tracked, checked: set<Key>, r: seq<Key>,
                    fs: map<FilterId, EventId>, gs: map<Key, EventId>)
    requires Through(ix, e, done, checked, r, fs, gs) && !Hits(ix, c, e)
    ensures Through(ix, e, done + [c], checked, r, fs, gs)
  {
    HitNext(ix, e, done, c);
    assert HitIds(ix, e, done) + {} == HitIds(ix, e, done) && HitOwners(ix, e, done) + {} == HitOwners(ix, e, done);
    LoopSkip(ix, e, done, c, HitIds(ix, e, done), checked, r);
    assert LoopState(ix, e, done + [c], HitIds(ix, e, done + [c]), checked, r);
  }

  lemma ThroughMark(ix: Index, e: Event, done: seq<Tracked>, c: Tracked, checked: set<Key>, r: seq<Key>,
                    fs: map<FilterId, EventId>, gs: map<Key, EventId>)
    requires Through(ix, e, done, checked, r, fs, gs) && Hits(ix, c, e) && c.owner in ix.groups
    ensures if c.owner in checked then Through(ix, e, done + [c], checked, r, fs[c.id := e.id], gs)
            else AtGroup(ix, e, done, c, checked + {c.owner}, r, fs[c.id := e.id], gs)
  {
    HitNext(ix, e, done, c);
    MarkMore(ix.filterSeen, ix.groups, HitIds(ix, e, done), r, c.id, c.owner, e.id);
    LoopHit(ix, e, done, c, HitIds(ix, e, done), checked, r);
    if c.owner in checked { assert checked + {c.owner} == checked; }
  }

  lemma GroupDone(ix: Index, e: Event, done: seq<Tracked>, c: Tracked, checked: set<Key>, r: seq<Key>,
                  fs: map<FilterId, EventId>, gs: map<Key, EventId>)
    requires AtGroup(ix, e, done, c, checked, r, fs, gs) && c.owner in ix.groups
    ensures if GroupSaw(ix, c.owner, e.id) then Through(ix, e, done + [c], checked, r, fs, gs)
            else Through(ix, e, done + [c], checked, r + [c.owner], fs, gs[c.owner := e.id])
  {
    HitNext(ix, e, done, c);
    LoopHit(ix, e, done, c, HitIds(ix, e, done), HitOwners(ix, e, done), r);
    MarkingsMore(ix.groups, r, c.owner, e.id);
  }

  /** One step from where the loop is, at candidate `c`. */
  lemma StepFrom(ix: Index, s: State, t: Task, done: seq<Tracked>, c: Tracked)
    requires !t.Finished() && WhereItIs(ix, s.filterSeen, s.groupSeen, t) && c.owner in ix.groups
    requires done == t.candidates[..t.pos] && c == t.candidates[t.pos]
    requires forall i | 0 <= i < |done| :: done[i].id != c.id
    ensures var (t', fs, gs) := TaskStep(s, t); t'.pos <= |t'.candidates| && WhereItIs(ix, fs, gs, t')
  {
    var e, fs, gs := t.event, s.filterSeen, s.groupSeen;
    PrefixNext(t.candidates, t.pos);
    match t.phase
    case CheckFilter =>
      OwnFilterMarker(ix, e, done, c, t.checked, t.result, fs, gs);
      if !Hits(ix, c, e) { ThroughSkip(ix, e, done, c, t.checked, t.result, fs, gs); }
    case MarkFilter => ThroughMark(ix, e, done, c, t.checked, t.result, fs, gs);
    case CheckGroup =>
      OwnGroupMarker(ix, e, done, c, t.checked, t.result, fs, gs);
      if GroupSaw(ix, c.owner, e.id) { GroupDone(ix, e, done, c, t.checked, t.result, fs, gs); }
    case MarkGroup => GroupDone(ix, e, done, c, t.checked, t.result, fs, gs);
  }

  /** A step of a task that runs alone keeps it in step with the distribution loop. */
  lemma SoloStep(ix: Index, s: State, t: Task)
    requires Valid(ix) && !t.Finished() && CandidatesOf(ix, t.event, t.candidates)
    requires InStep(ix, s.filterSeen, s.groupSeen, t)
    ensures var (t', fs, gs) := TaskStep(s, t);
            t'.event == t.event && t'.candidates == t.candidates && InStep(ix, fs, gs, t')
  {
    var c := t.candidates[t.pos];
    assert WhereItIs(ix, s.filterSeen, s.groupSeen, t) by { assert Unfold(0); }
    assert c in t.candidates && Live(ix, c);
    StepFrom(ix, s, t, t.candidates[..t.pos], c);
  }

  lemma {:induction false} SoloRun(ix: Index, e: Event, cs: seq<Tracked>, schedule: seq<nat>)
    requires Valid(ix) && CandidatesOf(ix, e, cs)
    ensures var end := Run(Start(ix, [Begin(e, cs)]), schedule);
            |end.tasks| == 1 && end.tasks[0].event == e && end.tasks[0].candidates == cs &&
            InStep(ix, end.filterSeen, end.groupSeen, end.tasks[0])
    decreases |schedule|
  {
    if schedule == [] {
      SoloBegins(ix, e, cs);
    } else {
      var n := |schedule| - 1;
      SoloRun(ix, e, cs, schedule[..n]);
      var s := Run(Start(ix, [Begin(e, cs)]), schedule[..n]);
      if schedule[n] == 0 && !s.tasks[0].Finished() { SoloStep(ix, s, s.tasks[0]); }
    }
  }

  lemma SoloBegins(ix: Index, e: Event, cs: seq<Tracked>)
    requires CandidatesOf(ix, e, cs)
    ensures InStep(ix, ix.filterSeen, Markings(ix.groups), Begin(e, cs))
  {
    MarkNothing(ix, e.id);
    assert cs[..0] == [];
    assert HitIds(ix, e, []) == {} && HitOwners(ix, e, []) == {};
  }

  /**
    The steps refine the distribution in one piece: a call that runs alone, for any event, new or
    repeated, reports once it has finished exactly what the index's own loop does, and leaves
    exactly its markers.
   */
  lemma SoloCallIsDistribution(ix: Index, e: Event, cs: seq<Tracked>, schedule: seq<nat>)
    requires Valid(ix) && CandidatesOf(ix, e, cs)
    ensures var end := Run(Start(ix, [Begin(e, cs)]), schedule);
            && |end.tasks| == 1
            && (end.tasks[0].Finished() ==>
                  && NoDuplicates(end.tasks[0].result) && Elements(end.tasks[0].result) == FreshMatches(ix, e)
                  && end.filterSeen == MarkSeen(ix, e).filterSeen
                  && end.groupSeen == Markings(MarkSeen(ix, e).groups))
  {
    SoloRun(ix, e, cs, schedule);
    var end := Run(Start(ix, [Begin(e, cs)]), schedule);
    var t := end.tasks[0];
    if t.Finished() {
      assert t.candidates[..t.pos] == cs && WhereItIs(ix, end.filterSeen, end.groupSeen, t) by { assert Unfold(0); }
      LoopDone(ix, e, cs, HitIds(ix, e, cs), HitOwners(ix, e, cs), t.result);
      assert MarkGroups(ix.groups, Elements(t.result), e.id) == MarkSeen(ix, e).groups;
    }
  }
}
