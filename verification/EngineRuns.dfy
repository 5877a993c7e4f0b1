/** Runs of the workflow engine: the event log replays to the rows and the jobs match the log. */
module EngineRuns {
  import opened Common
  import opened JsonValues
  import opened Text
  import opened Definitions
  import opened DefinitionRules
  import opened FieldPatches
  import opened Engine
  import D = Definitions
  import S = Submissions

  // ---- reading the log ------------------------------------------------------------------------------

  /** The last non-empty to_state of a submission. */
  function StateOf(events: seq<Event>, id: nat): string {
    if events == [] then ""
    else
      var e := events[|events| - 1];
      if e.submission == id && e.to != "" then e.to else StateOf(events[..|events| - 1], id)
  }

  /** The recorded changes of a submission, folded over the empty map. */
  function FieldsOf(events: seq<Event>, id: nat): Fields {
    if events == [] then map[]
    else
      var e := events[|events| - 1];
      var before := FieldsOf(events[..|events| - 1], id);
      if e.submission == id then Replay(before, e.changed) else before
  }

  predicate Mentions(events: seq<Event>, id: nat) {
    exists k :: 0 <= k < |events| && events[k].submission == id
  }

  /** Is e an event that the workflow allows after the given log? */
  predicate Allowed(w: Option<Workflow>, log: seq<Event>, e: Event) {
    match e.kind
    case Created =>
      !Mentions(log, e.submission) && e.from == "" && e.changed == map[] &&
      e.to == (if w.None? then SUBMITTED else w.value.initial)
    case Transitioned =>
      Mentions(log, e.submission) && w.Some? && e.from == StateOf(log, e.submission) &&
      w.value.FindTransition(e.transition).Some? &&
      var t := w.value.FindTransition(e.transition).value; e.from in t.Sources() && e.to == t.to
    case FieldsUpdated => Mentions(log, e.submission) && w.Some? && e.to == "" && e.changed != map[]
    case _ => Mentions(log, e.submission) && e.to == "" && e.changed == map[]
  }

  /** The workflow that a submission is pinned to. */
  function Pinned(workflows: seq<Workflow>, pins: seq<Option<nat>>, id: nat): Option<Workflow> {
    if id < |pins| && pins[id].Some? && pins[id].value < |workflows| then Some(workflows[pins[id].value]) else None
  }

  function Pins(subs: seq<Submission>): (pins: seq<Option<nat>>)
    ensures |pins| == |subs|
  {
    seq(|subs|, i requires 0 <= i < |subs| => subs[i].workflow)
  }

  /** Every submission's events start with its creation and then follow its workflow. */
  ghost predicate Walk(workflows: seq<Workflow>, pins: seq<Option<nat>>, events: seq<Event>) {
    forall k :: 0 <= k < |events| ==> WalkAt(workflows, pins, events, k)
  }

  predicate WalkAt(workflows: seq<Workflow>, pins: seq<Option<nat>>, events: seq<Event>, k: nat)
    requires k < |events|
  {
    events[k].submission < |pins| && Allowed(Pinned(workflows, pins, events[k].submission), events[..k], events[k])
  }

  /** The jobs that one event calls for: the actions of the workflow's onSubmit or of its transition. */
  function JobsOf(w: Option<Workflow>, e: Event, eventId: nat): seq<Job> {
    if w.None? then []
    else if e.kind.Created? then JobsFor(e.submission, SUBMIT, eventId, w.value.onSubmit)
    else if e.kind.Transitioned? && w.value.FindTransition(e.transition).Some? then
      JobsFor(e.submission, e.transition, eventId, w.value.FindTransition(e.transition).value.actions)
    else []
  }

  function Outbox(workflows: seq<Workflow>, pins: seq<Option<nat>>, events: seq<Event>): seq<Job> {
    if events == [] then []
    else
      var e := events[|events| - 1];
      Outbox(workflows, pins, events[..|events| - 1]) + JobsOf(Pinned(workflows, pins, e.submission), e, |events|)
  }

  // ---- the invariant -----------------------------------------------------------------------------------

  ghost predicate RowOk(fm: Formats, s: System, id: nat)
    requires id < |s.subs|
  {
    var sub := s.subs[id];
    Mentions(s.events, id) && StateOf(s.events, id) == sub.state && FieldsOf(s.events, id) == sub.fields &&
    if sub.workflow.None? then sub.state == SUBMITTED && sub.fields == map[]
    else
      sub.workflow.value < |s.workflows| &&
      var w := s.workflows[sub.workflow.value]; sub.state in StateKeys(w.StateList()) && Clean(fm, w, sub.fields)
  }

  ghost predicate Inv(fm: Formats, s: System) {
    (forall v :: 0 <= v < |s.workflows| ==> ValidWorkflow(fm, s.workflows[v])) &&
    (forall id :: 0 <= id < |s.subs| ==> RowOk(fm, s, id)) &&
    Walk(s.workflows, Pins(s.subs), s.events) &&
    s.jobs == Outbox(s.workflows, Pins(s.subs), s.events)
  }

  // ---- steps -------------------------------------------------------------------------------------------------

  datatype Op =
    | AddVersion(w: Workflow)
    | Create(form: Form, pin: Option<nat>, data: map<string, Json>, requirePublic: bool, sender: Option<Principal>)
    | Transition(id: nat, p: Principal, input: Input)
    | UpdateFields(id: nat, p: Principal, patch: Fields)
    | Comment(id: nat, p: Principal, body: string)
    | Assign(id: nat, p: Principal, user: Option<nat>, name: Option<string>)
    | Record(id: nat, kind: EventKind, assignee: Option<nat>, detail: Detail)

  /** Only valid workflows become versions, forms pin existing ones, and handlers record only their own kinds. */
  ghost predicate Possible(fm: Formats, s: System, op: Op) {
    match op
    case AddVersion(w) => ValidWorkflow(fm, w)
    case Create(_, pin, _, _, _) => pin.Some? ==> pin.value < |s.workflows|
    case Record(_, kind, _, _) => kind.Assigned? || kind.ActionSucceeded? || kind.ActionFailed?
    case _ => true
  }

  function Next(fm: Formats, s: System, op: Op): System
    requires Possible(fm, s, op)
  {
    match op
    case AddVersion(w) => s.(workflows := s.workflows + [w])
    case Create(form, pin, data, requirePublic, p) => DoCreate(fm, s, form, pin, data, requirePublic, p).0
    case Transition(id, p, input) => DoTransition(fm, s, id, p, input).0
    case UpdateFields(id, p, patch) => DoUpdate(fm, s, id, p, patch).0
    case Comment(id, p, body) => DoComment(fm, s, id, p, body).0
    case Assign(id, p, user, name) => DoAssign(s, id, p, user, name).0
    case Record(id, kind, assignee, detail) => DoRecord(s, id, kind, assignee, detail).0
  }

  /** What the caller is told. */
  function Outcome(fm: Formats, s: System, op: Op): Result<nat, Error>
    requires Possible(fm, s, op)
  {
    match op
    case AddVersion(w) => Ok(|s.workflows|)
    case Create(form, pin, data, requirePublic, p) => DoCreate(fm, s, form, pin, data, requirePublic, p).1
    case Transition(id, p, input) => DoTransition(fm, s, id, p, input).1
    case UpdateFields(id, p, patch) => DoUpdate(fm, s, id, p, patch).1
    case Comment(id, p, body) => DoComment(fm, s, id, p, body).1
    case Assign(id, p, user, name) => DoAssign(s, id, p, user, name).1
    case Record(id, kind, assignee, detail) => DoRecord(s, id, kind, assignee, detail).1
  }

  ghost predicate PossibleRun(fm: Formats, s: System, ops: seq<Op>)
    decreases |ops|
  {
    ops == [] || (Possible(fm, s, ops[0]) && PossibleRun(fm, Next(fm, s, ops[0]), ops[1..]))
  }

  ghost function Run(fm: Formats, s: System, ops: seq<Op>): System
    requires PossibleRun(fm, s, ops)
    decreases |ops|
  {
    if ops == [] then s else Run(fm, Next(fm, s, ops[0]), ops[1..])
  }

  const START := System([], [], [], [])

  // ---- appending to the log --------------------------------------------------------------------------------

  lemma Front<T>(xs: seq<T>, x: T)
    ensures (xs + [x])[..|xs + [x]| - 1] == xs && (xs + [x])[|xs + [x]| - 1] == x
  {
  }

  /** How one more event changes what the log says of a submission. */
  lemma LogGrows(events: seq<Event>, e: Event, id: nat)
    ensures StateOf(events + [e], id) == if e.submission == id && e.to != "" then e.to else StateOf(events, id)
    ensures FieldsOf(events + [e], id) ==
            if e.submission == id then Replay(FieldsOf(events, id), e.changed) else FieldsOf(events, id)
    ensures Mentions(events + [e], id) <==> Mentions(events, id) || e.submission == id
  {
    hide Replay;
    Front(events, e);
    if e.submission == id {
      assert (events + [e])[|events|] == e;
    }
    if Mentions(events, id) {
      var k :| 0 <= k < |events| && events[k].submission == id;
      assert (events + [e])[k] == events[k];
    }
  }

  lemma ReplayNothing(fields: Fields)
    ensures Replay(fields, map[]) == fields
  {
  }

  lemma OutboxGrows(workflows: seq<Workflow>, pins: seq<Option<nat>>, events: seq<Event>, e: Event)
    ensures Outbox(workflows, pins, events + [e]) ==
            Outbox(workflows, pins, events) + JobsOf(Pinned(workflows, pins, e.submission), e, |events| + 1)
  {
    hide JobsOf;
    Front(events, e);
  }

  lemma WalkGrows(workflows: seq<Workflow>, pins: seq<Option<nat>>, events: seq<Event>, e: Event)
    requires Walk(workflows, pins, events)
    requires e.submission < |pins| && Allowed(Pinned(workflows, pins, e.submission), events, e)
    ensures Walk(workflows, pins, events + [e])
  {
    hide Allowed;
    var log := events + [e];
    forall k | 0 <= k < |log| ensures WalkAt(workflows, pins, log, k) {
      if k < |events| {
        assert log[..k] == events[..k];
        assert WalkAt(workflows, pins, events, k);
      } else {
        assert log[..k] == events;
      }
    }
  }

  /** New versions and new submissions leave the reading of the log as it was. */
  lemma {:induction false} OutboxKept(workflows: seq<Workflow>, more: seq<Workflow>, pins: seq<Option<nat>>,
        morePins: seq<Option<nat>>, events: seq<Event>)
    requires Walk(workflows, pins, events)
    requires forall i :: 0 <= i < |pins| && pins[i].Some? ==> pins[i].value < |workflows|
    ensures Walk(workflows + more, pins + morePins, events)
    ensures Outbox(workflows + more, pins + morePins, events) == Outbox(workflows, pins, events)
  {
    hide Allowed, JobsOf;
    forall k | 0 <= k < |events| ensures WalkAt(workflows + more, pins + morePins, events, k) {
      assert WalkAt(workflows, pins, events, k);
      assert Pinned(workflows + more, pins + morePins, events[k].submission) ==
             Pinned(workflows, pins, events[k].submission);
    }
    if events != [] {
      var front := events[..|events| - 1];
      forall k | 0 <= k < |front| ensures WalkAt(workflows, pins, front, k) {
        assert WalkAt(workflows, pins, events, k);
        assert front[..k] == events[..k];
      }
      OutboxKept(workflows, more, pins, morePins, front);
      assert WalkAt(workflows, pins, events, |events| - 1);
    }
  }

  // ---- each step keeps the invariant -------------------------------------------------------------------------

  lemma PinsInRange(fm: Formats, s: System)
    requires Inv(fm, s)
    ensures forall i :: 0 <= i < |s.subs| && s.subs[i].workflow.Some? ==> s.subs[i].workflow.value < |s.workflows|
    ensures forall i :: 0 <= i < |Pins(s.subs)| && Pins(s.subs)[i].Some? ==> Pins(s.subs)[i].value < |s.workflows|
  {
    hide Clean, Walk, Outbox, StateOf, FieldsOf, Mentions, ValidWorkflow;
    forall i | 0 <= i < |s.subs| ensures s.subs[i].workflow.Some? ==> s.subs[i].workflow.value < |s.workflows| {
      assert RowOk(fm, s, i);
    }
  }

  lemma AddVersionKeeps(fm: Formats, s: System, w: Workflow)
    requires Inv(fm, s) && ValidWorkflow(fm, w)
    ensures Inv(fm, s.(workflows := s.workflows + [w]))
  {
    hide Walk, Outbox, StateOf, FieldsOf, ValidWorkflow, Mentions;
    PinsInRange(fm, s);
    OutboxKept(s.workflows, [w], Pins(s.subs), [], s.events);
    assert Pins(s.subs) + [] == Pins(s.subs);
    forall id | 0 <= id < |s.subs| ensures RowOk(fm, s.(workflows := s.workflows + [w]), id) {
      assert RowOk(fm, s, id);
    }
  }

  /** A step that rewrites row `id` (but not its pin) and appends one event about it with its jobs. */
  lemma RowStepKeeps(fm: Formats, s: System, id: nat, sub: Submission, e: Event)
    requires Inv(fm, s) && id < |s.subs| && sub.workflow == s.subs[id].workflow && e.submission == id
    requires Allowed(Pinned(s.workflows, Pins(s.subs), id), s.events, e)
    requires sub.state == (if e.to != "" then e.to else s.subs[id].state) &&
             sub.fields == Replay(s.subs[id].fields, e.changed)
    requires sub.workflow.None? ==> sub.state == SUBMITTED && sub.fields == map[]
    requires sub.workflow.Some? && sub.workflow.value < |s.workflows| ==>
               sub.state in StateKeys(s.workflows[sub.workflow.value].StateList()) &&
               Clean(fm, s.workflows[sub.workflow.value], sub.fields)
    ensures var jobs := JobsOf(Pinned(s.workflows, Pins(s.subs), id), e, |s.events| + 1);
            Inv(fm, Enqueue(Append(s.(subs := s.subs[id := sub]), e), jobs))
  {
    hide Walk, Outbox, StateOf, FieldsOf, ValidWorkflow, Mentions, Clean, Allowed, JobsOf, Replay;
    var jobs := JobsOf(Pinned(s.workflows, Pins(s.subs), id), e, |s.events| + 1);
    var s' := Enqueue(Append(s.(subs := s.subs[id := sub]), e), jobs);
    assert Pins(s'.subs) == Pins(s.subs);
    WalkGrows(s.workflows, Pins(s.subs), s.events, e);
    OutboxGrows(s.workflows, Pins(s.subs), s.events, e);
    forall i | 0 <= i < |s'.subs| ensures RowOk(fm, s', i) {
      assert RowOk(fm, s, i);
      LogGrows(s.events, e, i);
    }
  }

  lemma WorkflowIsPinned(s: System, id: nat)
    ensures WorkflowFor(s, id).Ok? ==> Pinned(s.workflows, Pins(s.subs), id) == Some(WorkflowFor(s, id).value)
  {
  }

  lemma TransitionTargets(fm: Formats, w: Workflow, key: string)
    requires ValidWorkflow(fm, w) && w.FindTransition(key).Some?
    ensures w.FindTransition(key).value.to in StateKeys(w.StateList())
    ensures w.FindTransition(key).value.to != ""
    ensures forall src :: src in w.FindTransition(key).value.Sources() ==> src in OpenStateKeys(w.StateList())
  {
    hide GuardOk, AllActionsOk, WorkflowFieldOk;
    var t := w.FindTransition(key).value;
    var i :| 0 <= i < |w.TransitionList()| && w.TransitionList()[i] == t;
    assert TransitionOk(fm, w, i);
    StateKeysAreKeys(fm, w, t.to);
  }

  lemma StateKeysAreKeys(fm: Formats, w: Workflow, k: string)
    requires ValidWorkflow(fm, w) && k in StateKeys(w.StateList())
    ensures IsKey(k)
  {
    hide IsKey, TransitionOk, WorkflowFieldOk, AllActionsOk;
    var i :| 0 <= i < |w.StateList()| && w.StateList()[i].key == k;
    assert StateOk(fm, w.StateList(), i);
  }

  lemma TransitionKeeps(fm: Formats, s: System, id: nat, p: Principal, input: Input)
    requires Inv(fm, s)
    ensures Inv(fm, DoTransition(fm, s, id, p, input).0)
  {
    hide Inv, ValidWorkflow, Merged, Changed, Missing, HasAnyRole, IssuesOf, StateOf, FieldsOf, StateKeys, Clean,
         Replay;
    var r := DoTransition(fm, s, id, p, input);
    if r.1.Ok? {
      var w := WorkflowFor(s, id).value;
      var sub := s.subs[id];
      var m := Decide(fm, w, sub.state, sub.fields, p, input).value;
      WorkflowIsPinned(s, id);
      RowFacts(fm, s, id);
      TransitionTargets(fm, w, input.transition);
      ChangeReplays(fm, w, sub.fields, input.patch);
      MergedStaysClean(fm, w, sub.fields, input.patch);
      var e := Event(id, Transitioned, sub.state, m.to, input.transition, ActorOf(Some(p)), m.changed,
                     Words(Trim(fm.space, input.comment)));
      RowStepKeeps(fm, s, id, sub.(state := m.to, fields := m.fields), e);
    }
  }

  /** What the invariant says of one row. */
  lemma RowFacts(fm: Formats, s: System, id: nat)
    requires Inv(fm, s) && id < |s.subs|
    ensures RowOk(fm, s, id) && StateOf(s.events, id) == s.subs[id].state && Mentions(s.events, id)
    ensures WorkflowFor(s, id).Ok? ==>
              ValidWorkflow(fm, WorkflowFor(s, id).value) && Clean(fm, WorkflowFor(s, id).value, s.subs[id].fields) &&
              s.subs[id].state in StateKeys(WorkflowFor(s, id).value.StateList())
    ensures WorkflowFor(s, id).Ok? ||
            (s.subs[id].state == SUBMITTED && s.subs[id].fields == map[] && s.subs[id].workflow.None?)
  {
    hide Walk, Outbox, StateOf, FieldsOf, ValidWorkflow, Mentions, Clean;
    assert RowOk(fm, s, id);
  }

  lemma UpdateKeeps(fm: Formats, s: System, id: nat, p: Principal, patch: Fields)
    requires Inv(fm, s)
    ensures Inv(fm, DoUpdate(fm, s, id, p, patch).0)
  {
    hide Inv, ValidWorkflow, Merged, Changed, IssuesOf, StateOf, FieldsOf, StateKeys, Clean, Replay;
    var r := DoUpdate(fm, s, id, p, patch);
    if r.0 != s {
      var w := WorkflowFor(s, id).value;
      var sub := s.subs[id];
      WorkflowIsPinned(s, id);
      RowFacts(fm, s, id);
      ChangeReplays(fm, w, sub.fields, patch);
      MergedStaysClean(fm, w, sub.fields, patch);
      var e := Event(id, FieldsUpdated, "", "", "", ActorOf(Some(p)), Changed(fm, w, sub.fields, patch), Nothing);
      RowStepKeeps(fm, s, id, sub.(fields := Merged(fm, w, sub.fields, patch)), e);
      assert r.0 == Enqueue(Append(s.(subs := s.subs[id := sub.(fields := Merged(fm, w, sub.fields, patch))]), e), []);
    }
  }

  /** Comments, assignments and records of actions change neither state nor fields. */
  lemma NoteKeeps(fm: Formats, s: System, id: nat, kind: EventKind, assignee: Option<nat>, actor: Actor, detail: Detail)
    requires Inv(fm, s) && id < |s.subs| &&
             (kind.Commented? || kind.Assigned? || kind.ActionSucceeded? || kind.ActionFailed?)
    ensures Inv(fm, Append(s.(subs := s.subs[id := s.subs[id].(assignee := assignee)]), Note(id, kind, actor, detail)))
  {
    hide Inv, ValidWorkflow, StateOf, FieldsOf, StateKeys, Clean, Replay;
    WorkflowIsPinned(s, id);
    RowFacts(fm, s, id);
    ReplayNothing(s.subs[id].fields);
    var s1 := Append(s.(subs := s.subs[id := s.subs[id].(assignee := assignee)]), Note(id, kind, actor, detail));
    RowStepKeeps(fm, s, id, s.subs[id].(assignee := assignee), Note(id, kind, actor, detail));
    assert s1 == Enqueue(s1, []);
  }

  lemma PlainNoteKeeps(fm: Formats, s: System, id: nat, kind: EventKind, actor: Actor, detail: Detail)
    requires Inv(fm, s) && id < |s.subs| && (kind.Commented? || kind.ActionSucceeded? || kind.ActionFailed?)
    ensures Inv(fm, Append(s, Note(id, kind, actor, detail)))
  {
    hide Inv;
    NoteKeeps(fm, s, id, kind, s.subs[id].assignee, actor, detail);
    assert s.subs[id := s.subs[id].(assignee := s.subs[id].assignee)] == s.subs;
  }

  /** The log holds no events about a submission that does not exist yet. */
  lemma {:induction false} Unmentioned(workflows: seq<Workflow>, pins: seq<Option<nat>>, events: seq<Event>, id: nat)
    requires Walk(workflows, pins, events) && id >= |pins|
    ensures !Mentions(events, id) && FirstCreated(events, id) == 0 && FieldsOf(events, id) == map[]
  {
    hide Allowed, Replay;
    forall k | 0 <= k < |events| ensures events[k].submission != id {
      assert WalkAt(workflows, pins, events, k);
    }
    UnmentionedReads(events, id);
  }

  lemma {:induction false} UnmentionedReads(events: seq<Event>, id: nat)
    requires forall k :: 0 <= k < |events| ==> events[k].submission != id
    ensures FirstCreated(events, id) == 0 && FieldsOf(events, id) == map[]
  {
    hide Replay;
    if events != [] {
      UnmentionedReads(events[..|events| - 1], id);
    }
  }

  /** The creating transaction finds the event that it has just written. */
  lemma CreatedIsFound(s: System, e: Event, fm: Formats)
    requires Inv(fm, s) && e.submission == |s.subs| && e.kind.Created?
    ensures FirstCreated(s.events + [e], |s.subs|) == |s.events| + 1
  {
    hide Outbox, ValidWorkflow, RowOk;
    Unmentioned(s.workflows, Pins(s.subs), s.events, |s.subs|);
    Front(s.events, e);
  }

  lemma InitialIsState(fm: Formats, s: System, pin: Option<nat>)
    requires Inv(fm, s) && (pin.Some? ==> pin.value < |s.workflows|)
    ensures InitialState(s, pin) != ""
    ensures pin.Some? ==> InitialState(s, pin) in StateKeys(s.workflows[pin.value].StateList())
  {
    hide Walk, Outbox, RowOk;
    if pin.Some? {
      assert ValidWorkflow(fm, s.workflows[pin.value]);
      StateKeysAreKeys(fm, s.workflows[pin.value], InitialState(s, pin));
    }
  }

  lemma CreateKeeps(fm: Formats, s: System, form: Form, pin: Option<nat>, data: map<string, Json>, requirePublic: bool,
          p: Option<Principal>)
    requires Inv(fm, s) && (pin.Some? ==> pin.value < |s.workflows|)
    ensures Inv(fm, DoCreate(fm, s, form, pin, data, requirePublic, p).0)
  {
    hide Inv, StateKeys, StateOf, FieldsOf, S.Pass;
    var r := DoCreate(fm, s, form, pin, data, requirePublic, p);
    if r.1.Ok? {
      var id := |s.subs|;
      var e := Event(id, Created, "", InitialState(s, pin), "", ActorOf(p), map[], Nothing);
      CreatedIsFound(s, e, fm);
      InitialIsState(fm, s, pin);
      NewRowKeeps(fm, s, r.0.subs[id], e);
    }
  }

  lemma NewRowKeeps(fm: Formats, s: System, sub: Submission, e: Event)
    requires Inv(fm, s) && (sub.workflow.Some? ==> sub.workflow.value < |s.workflows|)
    requires e == Event(|s.subs|, Created, "", sub.state, "", e.actor, map[], Nothing) && sub.fields == map[]
    requires sub.state == InitialState(s, sub.workflow) && sub.state != ""
    requires sub.workflow.Some? ==> sub.state in StateKeys(s.workflows[sub.workflow.value].StateList())
    ensures Inv(fm,
                Enqueue(Append(s.(subs := s.subs + [sub]), e),
                        JobsFor(|s.subs|, SUBMIT, |s.events| + 1, OnSubmit(s, sub.workflow))))
  {
    hide Walk, Outbox, StateOf, FieldsOf, ValidWorkflow, Mentions, Replay, StateKeys;
    var jobs := JobsFor(|s.subs|, SUBMIT, |s.events| + 1, OnSubmit(s, sub.workflow));
    var s' := Enqueue(Append(s.(subs := s.subs + [sub]), e), jobs);
    var pins := Pins(s.subs) + [sub.workflow];
    assert Pins(s'.subs) == pins;
    PinsInRange(fm, s);
    OutboxKept(s.workflows, [], Pins(s.subs), [sub.workflow], s.events);
    assert s.workflows + [] == s.workflows;
    Unmentioned(s.workflows, Pins(s.subs), s.events, |s.subs|);
    assert Pinned(s.workflows, pins, |s.subs|) ==
           if sub.workflow.None? then None else Some(s.workflows[sub.workflow.value]);
    WalkGrows(s.workflows, pins, s.events, e);
    OutboxGrows(s.workflows, pins, s.events, e);
    assert JobsOf(Pinned(s.workflows, pins, e.submission), e, |s.events| + 1) == jobs;
    ReplayNothing(map[]);
    forall i | 0 <= i < |s'.subs| ensures RowOk(fm, s', i) {
      LogGrows(s.events, e, i);
      if i < |s.subs| { assert RowOk(fm, s, i); }
    }
  }

  lemma StepKeepsInv(fm: Formats, s: System, op: Op)
    requires Inv(fm, s) && Possible(fm, s, op)
    ensures Inv(fm, Next(fm, s, op))
  {
    hide Inv, DoCreate, DoTransition, DoUpdate, ValidWorkflow;
    match op
    case AddVersion(w) => AddVersionKeeps(fm, s, w);
    case Create(form, pin, data, requirePublic, p) => CreateKeeps(fm, s, form, pin, data, requirePublic, p);
    case Transition(id, p, input) => TransitionKeeps(fm, s, id, p, input);
    case UpdateFields(id, p, patch) => UpdateKeeps(fm, s, id, p, patch);
    case Comment(id, p, body) =>
      if DoComment(fm, s, id, p, body).1.Ok? {
        PlainNoteKeeps(fm, s, id, Commented, ActorOf(Some(p)), Words(Trim(fm.space, body)));
      }
    case Assign(id, p, user, name) =>
      if id < |s.subs| { NoteKeeps(fm, s, id, Assigned, user, ActorOf(Some(p)), Assignment(user, name)); }
    case Record(id, kind, assignee, detail) =>
      if id < |s.subs| {
        if kind.Assigned? {
          NoteKeeps(fm, s, id, kind, assignee, SystemActor, detail);
        } else {
          PlainNoteKeeps(fm, s, id, kind, SystemActor, detail);
        }
      }
  }

  /** In every run the log replays to the rows, follows the workflows, and matches the jobs. */
  lemma {:induction false} EveryRun(fm: Formats, s: System, ops: seq<Op>)
    requires Inv(fm, s) && PossibleRun(fm, s, ops)
    ensures Inv(fm, Run(fm, s, ops))
    decreases |ops|
  {
    hide Inv, Possible, Next;
    if ops != [] {
      StepKeepsInv(fm, s, ops[0]);
      EveryRun(fm, Next(fm, s, ops[0]), ops[1..]);
    }
  }

  lemma EveryRunFromTheStart(fm: Formats, ops: seq<Op>)
    requires PossibleRun(fm, START, ops)
    ensures Inv(fm, Run(fm, START, ops))
  {
    hide Possible, Next;
    EveryRun(fm, START, ops);
  }

  // ---- what the runs mean -------------------------------------------------------------------------------------

  /** A step only appends: to the versions, the submissions' pins, the log and the jobs. */
  ghost predicate Extends(s: System, s': System) {
    s.workflows <= s'.workflows && Pins(s.subs) <= Pins(s'.subs) && s.events <= s'.events && s.jobs <= s'.jobs
  }

  lemma StepExtends(fm: Formats, s: System, op: Op)
    requires Possible(fm, s, op)
    ensures Extends(s, Next(fm, s, op))
  {
    hide ValidWorkflow, Decide, IssuesOf, Merged, Changed, S.Pass, FirstCreated;
  }

  lemma {:induction false} RunExtends(fm: Formats, s: System, ops: seq<Op>)
    requires PossibleRun(fm, s, ops)
    ensures Extends(s, Run(fm, s, ops))
    decreases |ops|
  {
    hide Possible, Next;
    if ops != [] {
      StepExtends(fm, s, ops[0]);
      RunExtends(fm, Next(fm, s, ops[0]), ops[1..]);
    }
  }

  /** A call that fails writes nothing: no row, no event, no job. */
  lemma FailedCallsWriteNothing(fm: Formats, s: System, op: Op)
    requires Possible(fm, s, op) && Outcome(fm, s, op).Err?
    ensures Next(fm, s, op) == s
  {
    hide Decide, IssuesOf, Merged, Changed, S.Pass, FirstCreated, ValidWorkflow;
  }

  /** An accepted edit of the fields writes one event if it changed the map, and nothing if it did not. */
  lemma UpdateWritesIffChanged(fm: Formats, s: System, id: nat, p: Principal, patch: Fields)
    requires DoUpdate(fm, s, id, p, patch).1.Ok?
    ensures var s' := DoUpdate(fm, s, id, p, patch).0;
            id < |s'.subs| == |s.subs| && s'.jobs == s.jobs && s'.subs[id].state == s.subs[id].state &&
            |s'.events| == |s.events| + (if s'.subs[id].fields == s.subs[id].fields then 0 else 1) &&
            (s'.subs[id].fields == s.subs[id].fields ==> s' == s)
  {
    hide IssuesOf, Merged, Changed;
    ChangedIffDifferent(fm, WorkflowFor(s, id).value, s.subs[id].fields, patch);
  }

  ghost predicate IsTerminal(s: System, id: nat) {
    id < |s.subs| && WorkflowFor(s, id).Ok? &&
    s.subs[id].state !in OpenStateKeys(WorkflowFor(s, id).value.StateList())
  }

  /** A terminal state is never left, and its transitions all fail. */
  lemma {:induction false} TerminalIsFinal(fm: Formats, s: System, ops: seq<Op>, id: nat)
    requires Inv(fm, s) && PossibleRun(fm, s, ops) && IsTerminal(s, id)
    ensures IsTerminal(Run(fm, s, ops), id) && Run(fm, s, ops).subs[id].state == s.subs[id].state
    decreases |ops|
  {
    hide Possible, Next, Inv, IsTerminal;
    if ops != [] {
      StepKeepsInv(fm, s, ops[0]);
      TerminalStep(fm, s, ops[0], id);
      TerminalIsFinal(fm, Next(fm, s, ops[0]), ops[1..], id);
    }
  }

  lemma TerminalStep(fm: Formats, s: System, op: Op, id: nat)
    requires Inv(fm, s) && Possible(fm, s, op) && IsTerminal(s, id)
    ensures IsTerminal(Next(fm, s, op), id) && Next(fm, s, op).subs[id].state == s.subs[id].state
  {
    hide ValidWorkflow, IssuesOf, Merged, Changed, S.Pass, FirstCreated, OpenStateKeys, Inv, HasAnyRole, Missing;
    RowFacts(fm, s, id);
    StepExtends(fm, s, op);
    assert Pins(s.subs)[id] == Pins(Next(fm, s, op).subs)[id];
    if op.Transition? && op.id == id {
      if WorkflowFor(s, id).value.FindTransition(op.input.transition).Some? {
        TransitionTargets(fm, WorkflowFor(s, id).value, op.input.transition);
      }
      assert Next(fm, s, op) == s;
    }
  }

  // ---- what a job says about its event -------------------------------------------------------------------------

  /** The event that job j was written for, and its place among that event's actions. */
  ghost predicate WrittenFor(workflows: seq<Workflow>, pins: seq<Option<nat>>, events: seq<Event>, j: Job) {
    1 <= j.eventId <= |events| &&
    var e := events[j.eventId - 1];
    e.submission == j.submission && j in JobsOf(Pinned(workflows, pins, e.submission), e, j.eventId)
  }

  lemma JobsCarryTheirEvent(w: Option<Workflow>, e: Event, eventId: nat, j: Job)
    requires j in JobsOf(w, e, eventId)
    ensures j.submission == e.submission && j.eventId == eventId
    ensures w.Some? && (e.kind.Created? || (e.kind.Transitioned? && w.value.FindTransition(e.transition).Some?))
    ensures j.trigger == (if e.kind.Created? then SUBMIT else e.transition)
  {
  }

  lemma {:induction false} EveryJobHasItsEvent(workflows: seq<Workflow>, pins: seq<Option<nat>>, events: seq<Event>,
        j: Job)
    requires j in Outbox(workflows, pins, events)
    ensures WrittenFor(workflows, pins, events, j)
  {
    hide JobsOf, Pinned;
    var e := events[|events| - 1];
    if j in JobsOf(Pinned(workflows, pins, e.submission), e, |events|) {
      JobsCarryTheirEvent(Pinned(workflows, pins, e.submission), e, |events|, j);
    } else {
      EveryJobHasItsEvent(workflows, pins, events[..|events| - 1], j);
    }
  }

  /** What the action runner works out from a job: the transition, and the state it left ("" if none is looked up). */
  function Load(s: System, j: Job): (r: (Option<Transition>, string)) {
    if j.trigger != SUBMIT && Pinned(s.workflows, Pins(s.subs), j.submission).Some? then
      (Pinned(s.workflows, Pins(s.subs), j.submission).value.FindTransition(j.trigger),
       if 1 <= j.eventId <= |s.events| then s.events[j.eventId - 1].from else "")
    else (None, "")
  }

  /** However much later a job of a transition is loaded, the event id gives the state that the transition left,
      provided that the transition is not called "submit": the trigger of such a transition reads as the
      trigger of the creation, and neither the transition nor its source is looked up. */
  lemma LoadFindsTheSource(fm: Formats, s: System, ops: seq<Op>, j: Job)
    requires Inv(fm, s) && PossibleRun(fm, s, ops) && j in s.jobs
    ensures var s' := Run(fm, s, ops);
            1 <= j.eventId <= |s.events| <= |s'.events| && s'.events[j.eventId - 1] == s.events[j.eventId - 1] &&
            var e := s.events[j.eventId - 1];
            e.submission == j.submission &&
            (e.kind.Created? ==> Load(s', j) == (None, "")) &&
            (e.kind.Transitioned? ==>
               var source := StateOf(s.events[..j.eventId - 1], j.submission);
               source == e.from && source != "" &&
               (Load(s', j).0.Some? && Load(s', j).1 == source <==> e.transition != SUBMIT))
  {
    hide Inv, Outbox, Walk, StateOf, PossibleRun, Run, Extends;
    var s' := Run(fm, s, ops);
    RunExtends(fm, s, ops);
    JobFacts(fm, s, j);
    ExtendsKeepsEvent(s, s', j);
    var e := s.events[j.eventId - 1];
    if e.kind.Transitioned? {
      SourceIsState(fm, s, j.eventId - 1);
    }
  }

  lemma ExtendsKeepsEvent(s: System, s': System, j: Job)
    requires Extends(s, s') && 1 <= j.eventId <= |s.events|
    ensures |s'.events| >= |s.events| && s'.events[j.eventId - 1] == s.events[j.eventId - 1]
    ensures Pinned(s.workflows, Pins(s.subs), j.submission).Some? ==>
              Pinned(s'.workflows, Pins(s'.subs), j.submission) == Pinned(s.workflows, Pins(s.subs), j.submission)
  {
  }

  lemma JobFacts(fm: Formats, s: System, j: Job)
    requires Inv(fm, s) && j in s.jobs
    ensures 1 <= j.eventId <= |s.events| && s.events[j.eventId - 1].submission == j.submission
    ensures var e, w := s.events[j.eventId - 1], Pinned(s.workflows, Pins(s.subs), j.submission);
            w.Some? && j.trigger == (if e.kind.Created? then SUBMIT else e.transition) &&
            (e.kind.Created? || (e.kind.Transitioned? && w.value.FindTransition(e.transition).Some?))
  {
    hide Walk, RowOk, ValidWorkflow, Pinned, JobsOf, Outbox;
    EveryJobHasItsEvent(s.workflows, Pins(s.subs), s.events, j);
    var e := s.events[j.eventId - 1];
    JobsCarryTheirEvent(Pinned(s.workflows, Pins(s.subs), e.submission), e, j.eventId, j);
  }

  /** The source recorded with a transition is the state that the log before it gives, and it is a declared open
      state. */
  lemma SourceIsState(fm: Formats, s: System, k: nat)
    requires Inv(fm, s) && k < |s.events| && s.events[k].kind.Transitioned?
    ensures s.events[k].from == StateOf(s.events[..k], s.events[k].submission) && s.events[k].from != ""
  {
    hide Outbox, RowOk, ValidWorkflow, StateOf;
    assert WalkAt(s.workflows, Pins(s.subs), s.events, k);
    var w := Pinned(s.workflows, Pins(s.subs), s.events[k].submission).value;
    assert ValidWorkflow(fm, w);
    TransitionTargets(fm, w, s.events[k].transition);
    OpenIsDeclared(fm, w, s.events[k].from);
  }

  lemma OpenIsDeclared(fm: Formats, w: Workflow, k: string)
    requires ValidWorkflow(fm, w) && k in OpenStateKeys(w.StateList())
    ensures k in StateKeys(w.StateList()) && k != ""
  {
    hide ValidWorkflow;
    StateKeysAreKeys(fm, w, k);
  }

  // ---- what is offered -----------------------------------------------------------------------------------------

  lemma {:induction false} OffersAre(w: Workflow, ts: seq<Transition>, state: string, p: Principal, key: string,
          allowed: bool)
    ensures (exists o :: o in Offers(w, ts, state, p) && o.key == key && o.allowed == allowed) <==>
            exists t :: t in ts && t.key == key && state in t.Sources() && HasAnyRole(p, t.guard.roles) == allowed
  {
    hide HasAnyRole;
    if ts != [] {
      var front, t := ts[..|ts| - 1], ts[|ts| - 1];
      OffersAre(w, front, state, p, key, allowed);
      assert ts == front + [t];
      var mine := if state in t.Sources() then [OfferOf(w, t, p)] else [];
      assert Offers(w, ts, state, p) == Offers(w, front, state, p) + mine;
      if t.key == key && state in t.Sources() && HasAnyRole(p, t.guard.roles) == allowed {
        assert mine[0] in Offers(w, ts, state, p);
      }
    }
  }

  lemma FoundIsTheOnlyOne(fm: Formats, w: Workflow, t: Transition)
    requires ValidWorkflow(fm, w) && t in w.TransitionList()
    ensures w.FindTransition(t.key) == Some(t)
  {
    hide GuardOk, AllActionsOk, WorkflowFieldOk, StateOk;
    var ts := w.TransitionList();
    var f := w.FindTransition(t.key).value;
    var i :| 0 <= i < |ts| && ts[i] == t;
    var j :| 0 <= j < |ts| && ts[j] == f;
    assert TransitionOk(fm, w, i) && TransitionOk(fm, w, j);
  }

  /** The list of available transitions says exactly which ones the state and the roles let through:
      an allowed offer is never refused for being unknown, out of place or forbidden, and nothing else gets past
      these. */
  lemma OfferedIffPermitted(fm: Formats, w: Workflow, state: string, fields: Fields, p: Principal, input: Input)
    requires ValidWorkflow(fm, w) && (input.expectedState == "" || input.expectedState == state)
    ensures (exists o ::
               o in Offers(w, w.TransitionList(), state, p) && o.key == input.transition && o.allowed == true) <==>
            Decide(fm, w, state, fields, p, input) !in {Err(UnknownTransition), Err(InvalidState), Err(Forbidden)}
  {
    hide ValidWorkflow, IssuesOf, Merged, Changed, Missing, HasAnyRole;
    OffersAre(w, w.TransitionList(), state, p, input.transition, true);
    forall t | t in w.TransitionList() && t.key == input.transition
      ensures w.FindTransition(input.transition) == Some(t)
    {
      FoundIsTheOnlyOne(fm, w, t);
    }
  }

  /** The field has a value that counts: not null, not unchecked, not blank and not an empty list. */
  ghost predicate Given(fm: Formats, fields: Fields, k: string) {
    k in fields && fields[k] != Null && fields[k] != Bool(false) && fields[k] != Arr([]) &&
    (fields[k].Str? ==> Trim(fm.space, fields[k].s) != "")
  }

  lemma GivenIs(fm: Formats, fields: Fields, k: string)
    ensures Given(fm, fields, k) <==> !IsEmpty(fm, fields, k)
  {
  }

  /** The transition that a call asks for lets it through. */
  ghost predicate LetsThrough(fm: Formats, w: Workflow, t: Transition, state: string, fields: Fields, p: Principal,
        input: Input) {
    t in w.TransitionList() && t.key == input.transition && state in t.Sources() &&
    (input.expectedState == "" || input.expectedState == state) &&
    (t.guard.roles == [] || ADMIN in p.roles || exists r :: r in t.guard.roles && r in p.roles) &&
    (forall k :: k in input.patch ==> CheckEntry(fm, w, k, input.patch[k]).Ok?) &&
    (forall k :: k in t.guard.requireFields ==> Given(fm, Merged(fm, w, fields, input.patch), k))
  }

  /** A call is accepted exactly when some transition lets it through, and then it takes that one. */
  lemma AcceptedExactlyWhen(fm: Formats, w: Workflow, state: string, fields: Fields, p: Principal, input: Input)
    requires ValidWorkflow(fm, w)
    ensures Decide(fm, w, state, fields, p, input).Ok? <==> exists t :: LetsThrough(fm, w, t, state, fields, p, input)
    ensures forall t :: LetsThrough(fm, w, t, state, fields, p, input) ==>
              Decide(fm, w, state, fields, p, input) ==
              Ok(Move(t.to, Merged(fm, w, fields, input.patch), Changed(fm, w, fields, input.patch), t.actions))
  {
    hide ValidWorkflow, Decide, LetsThrough;
    forall t | LetsThrough(fm, w, t, state, fields, p, input)
      ensures Decide(fm, w, state, fields, p, input) ==
              Ok(Move(t.to, Merged(fm, w, fields, input.patch), Changed(fm, w, fields, input.patch), t.actions))
    {
      ThroughIsAccepted(fm, w, t, state, fields, p, input);
    }
    if Decide(fm, w, state, fields, p, input).Ok? {
      AcceptedIsThrough(fm, w, state, fields, p, input);
    }
  }

  lemma ThroughIsAccepted(fm: Formats, w: Workflow, t: Transition, state: string, fields: Fields, p: Principal,
        input: Input)
    requires ValidWorkflow(fm, w) && LetsThrough(fm, w, t, state, fields, p, input)
    ensures Decide(fm, w, state, fields, p, input) ==
            Ok(Move(t.to, Merged(fm, w, fields, input.patch), Changed(fm, w, fields, input.patch), t.actions))
  {
    hide ValidWorkflow, CheckEntry, Merged, Changed, IsEmpty, Given;
    FoundIsTheOnlyOne(fm, w, t);
    var merged := Merged(fm, w, fields, input.patch);
    forall k | k in t.guard.requireFields ensures !IsEmpty(fm, merged, k) { GivenIs(fm, merged, k); }
    if r :| r in t.guard.roles && r in p.roles {
      var i :| 0 <= i < |t.guard.roles| && t.guard.roles[i] == r;
    }
    assert IssuesOf(fm, w, input.patch) == map[];
  }

  lemma AcceptedIsThrough(fm: Formats, w: Workflow, state: string, fields: Fields, p: Principal, input: Input)
    requires Decide(fm, w, state, fields, p, input).Ok?
    ensures w.FindTransition(input.transition).Some? &&
            LetsThrough(fm, w, w.FindTransition(input.transition).value, state, fields, p, input)
  {
    hide CheckEntry, Merged, Changed, IsEmpty, Given;
    var t := w.FindTransition(input.transition).value;
    forall k | k in input.patch ensures CheckEntry(fm, w, k, input.patch[k]).Ok? {
      assert k !in IssuesOf(fm, w, input.patch);
    }
    forall k | k in t.guard.requireFields ensures Given(fm, Merged(fm, w, fields, input.patch), k) {
      var i :| 0 <= i < |t.guard.requireFields| && t.guard.requireFields[i] == k;
      GivenIs(fm, Merged(fm, w, fields, input.patch), k);
    }
  }

  // ---- a transition called "submit" ---------------------------------------------------------------------------

  const ANY_FORMAT := Formats({}, _ => true, _ => true, _ => true, _ => None, (_, _) => true, n => n)
  const HOOK := Action(Webhook, "u", "", "", "", "", "")
  const SUBMIT_ROUTE := D.Transition("submit", "S", Some(["a"]), "b", Guard([], []), [HOOK])
  const TWO_STATES := Workflow(
    "w", "W", "a", Some([State("a", "A", "", false), State("b", "B", "", true)]), [], [], Some([SUBMIT_ROUTE]))
  const CLERK := Principal(0, "C", "", false, [])
  const PLAIN_FORM := Form("f", "F", "", "w", FormSettings(true, "", ""), None)

  lemma TwoStatesIsValid()
    ensures ValidWorkflow(ANY_FORMAT, TWO_STATES)
  {
    hide IsSlug, IsKey;
    ShortNames();
    var ss := TWO_STATES.StateList();
    assert ss[0].key == "a" && ss[1].key == "b";
    assert "a" in OpenStateKeys(ss) && "a" in StateKeys(ss) && "b" in StateKeys(ss);
    assert TransitionOk(ANY_FORMAT, TWO_STATES, 0);
  }

  lemma ShortNames()
    ensures IsKey("a") && IsKey("b") && IsKey("submit") && IsSlug("w")
    ensures forall c: char :: !Blank({}, [c])
  {
  }

  /** A valid workflow may have such a transition; then the job of that transition is loaded without it. */
  lemma SubmitMayNameATransition() returns (s: System, j: Job)
    ensures Inv(ANY_FORMAT, s) && j in s.jobs && 1 <= j.eventId <= |s.events|
    ensures s.events[j.eventId - 1].kind.Transitioned? && s.events[j.eventId - 1].from == "a" &&
            Load(s, j) == (None, "")
  {
    hide ValidWorkflow, Inv, IssuesOf, Merged, Changed;
    TwoStatesIsValid();
    var s1 := Next(ANY_FORMAT, START, AddVersion(TWO_STATES));
    assert Inv(ANY_FORMAT, START) by { EveryRunFromTheStart(ANY_FORMAT, []); }
    StepKeepsInv(ANY_FORMAT, START, AddVersion(TWO_STATES));
    var s2 := Next(ANY_FORMAT, s1, Create(PLAIN_FORM, Some(0), map[], false, None));
    StepKeepsInv(ANY_FORMAT, s1, Create(PLAIN_FORM, Some(0), map[], false, None));
    assert s2.subs == [Submission(Some(0), "a", map[], map[], None)] && |s2.events| == 1;
    var step := Op.Transition(0, CLERK, Input("submit", map[], "", ""));
    s := Next(ANY_FORMAT, s2, step);
    StepKeepsInv(ANY_FORMAT, s2, step);
    EmptyPatch(TWO_STATES, map[]);
    assert TWO_STATES.FindTransition("submit") == Some(SUBMIT_ROUTE);
    j := Job(0, "submit", 2, HOOK);
    assert s.jobs == s2.jobs + JobsFor(0, "submit", 2, [HOOK]);
    assert JobsFor(0, "submit", 2, [HOOK])[0] == j;
  }

  lemma EmptyPatch(w: Workflow, fields: Fields)
    ensures IssuesOf(ANY_FORMAT, w, map[]) == map[]
  {
  }
}
