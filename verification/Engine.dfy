/** The workflow engine: guarded transitions and field edits that write the submission, its event log and
    the action jobs in one step, and what every run of such steps keeps. */
module Engine {
  import opened Common
  import opened JsonValues
  import opened Text
  import opened Definitions
  import opened FieldPatches
  import S = Submissions

  const ADMIN := "admin"
  const SUBMITTED := "submitted"
  const SUBMIT := "submit"
  const MAX_COMMENT := 10000

  datatype Principal = Principal(id: nat, name: string, email: string, isApiKey: bool, roles: seq<string>)

  datatype Actor = Respondent | User(id: nat, name: string) | ApiKey(id: nat, name: string) | SystemActor

  /** Whom an event names; without a principal it is the respondent. */
  function ActorOf(p: Option<Principal>): Actor {
    if p.None? then Respondent
    else
      var name := if p.value.name != "" then p.value.name else p.value.email;
      if p.value.isApiKey then ApiKey(p.value.id, name) else User(p.value.id, name)
  }

  /** Input of a transition; an empty expected state means any. */
  datatype Input = Input(transition: string, patch: Fields, comment: string, expectedState: string)

  /** `workflow` is the pinned workflow version, an index into the version table. */
  datatype Submission = Submission(
    workflow: Option<nat>, state: string, data: map<string, Json>, fields: Fields, assignee: Option<nat>)

  datatype EventKind = Created | Transitioned | FieldsUpdated | Assigned | Commented | ActionSucceeded | ActionFailed

  /** What an event's payload says besides the changed fields. */
  datatype Detail =
    | Nothing
    | Words(text: string)
    | Assignee(user: Option<nat>, name: string)
    | Performed(trigger: string, action: Action, error: string, job: nat)

  /** An event's id is one more than its index in the log; empty strings stand for null columns. */
  datatype Event = Event(
    submission: nat, kind: EventKind, from: string, to: string, transition: string, actor: Actor, changed: Fields,
    detail: Detail)

  datatype Job = Job(submission: nat, trigger: string, eventId: nat, action: Action)

  datatype Error =
    | NotFound | FormNotPublic | Rejected(findings: seq<S.Finding>) | NoWorkflow | UnknownTransition | StateConflict
    | InvalidState | Forbidden | BadFields(issues: Issues) | MissingFields(fields: seq<string>) | BadComment
    | UnknownUser | BadActionType

  /** The tables. */
  datatype System = System(workflows: seq<Workflow>, subs: seq<Submission>, events: seq<Event>, jobs: seq<Job>)

  // ---- one call, as a function of the tables ------------------------------------------------------------

  predicate HasAnyRole(p: Principal, roles: seq<string>) {
    roles == [] || ADMIN in p.roles || exists i :: 0 <= i < |roles| && roles[i] in p.roles
  }

  /** Whether a workflow field counts as not provided. */
  predicate IsEmpty(fm: Formats, fields: Fields, k: string) {
    k !in fields ||
    match fields[k]
    case Null => true
    case Str(s) => Blank(fm.space, s)
    case Bool(b) => !b
    case Arr(items) => items == []
    case _ => false
  }

  function Missing(fm: Formats, fields: Fields, required: seq<string>): (r: seq<string>)
    ensures r == [] <==> forall i :: 0 <= i < |required| ==> !IsEmpty(fm, fields, required[i])
  {
    if required == [] then []
    else Missing(fm, fields, required[..|required| - 1]) +
         if IsEmpty(fm, fields, required[|required| - 1]) then [required[|required| - 1]] else []
  }

  datatype Move = Move(to: string, fields: Fields, changed: Fields, actions: seq<Action>)

  /** The outcome of a transition on a submission in the given state with the given fields. */
  function Decide(fm: Formats, w: Workflow, state: string, fields: Fields, p: Principal,
        input: Input): Result<Move, Error> {
    match w.FindTransition(input.transition)
    case None => Err(UnknownTransition)
    case Some(t) =>
      if input.expectedState != "" && input.expectedState != state then Err(StateConflict)
      else if state !in t.Sources() then Err(InvalidState)
      else if !HasAnyRole(p, t.guard.roles) then Err(Forbidden)
      else if IssuesOf(fm, w, input.patch) != map[] then Err(BadFields(IssuesOf(fm, w, input.patch)))
      else
        var merged := Merged(fm, w, fields, input.patch);
        var missing := Missing(fm, merged, t.guard.requireFields);
        if missing != [] then Err(MissingFields(missing))
        else Ok(Move(t.to, merged, Changed(fm, w, fields, input.patch), t.actions))
  }

  predicate Known(actions: seq<Action>) {
    forall i :: 0 <= i < |actions| ==> !actions[i].kind.UnknownAction?
  }

  function JobsFor(id: nat, trigger: string, eventId: nat, actions: seq<Action>): seq<Job> {
    seq(|actions|, i requires 0 <= i < |actions| => Job(id, trigger, eventId, actions[i]))
  }

  /** SELECT id ... WHERE type = 'created' ORDER BY id LIMIT 1, and 0 if there is none. */
  function FirstCreated(events: seq<Event>, id: nat): (r: nat)
    ensures r <= |events|
  {
    if events == [] then 0
    else
      var earlier := FirstCreated(events[..|events| - 1], id);
      var e := events[|events| - 1];
      if earlier != 0 then earlier else if e.submission == id && e.kind.Created? then |events| else 0
  }

  function OnSubmit(s: System, pin: Option<nat>): seq<Action>
    requires pin.Some? ==> pin.value < |s.workflows|
  {
    if pin.None? then [] else s.workflows[pin.value].onSubmit
  }

  function InitialState(s: System, pin: Option<nat>): string
    requires pin.Some? ==> pin.value < |s.workflows|
  {
    if pin.None? then SUBMITTED else s.workflows[pin.value].initial
  }

  function Append(s: System, e: Event): System {
    s.(events := s.events + [e])
  }

  function Enqueue(s: System, jobs: seq<Job>): System {
    s.(jobs := s.jobs + jobs)
  }

  function DoCreate(fm: Formats, s: System, form: Form, pin: Option<nat>, data: map<string, Json>, requirePublic: bool,
                    p: Option<Principal>)
    : (System, Result<nat, Error>)
    requires pin.Some? ==> pin.value < |s.workflows|
  {
    if requirePublic && !form.settings.isPublic then (s, Err(FormNotPublic))
    else
      var t := S.Pass(fm, data, form.FieldList());
      if t.findings != [] then (s, Err(Rejected(t.findings)))
      else if !Known(OnSubmit(s, pin)) then (s, Err(BadActionType))
      else
        var id := |s.subs|;
        var s1 := s.(subs := s.subs + [Submission(pin, InitialState(s, pin), t.clean, map[], None)]);
        var s2 := Append(s1, Event(id, Created, "", InitialState(s, pin), "", ActorOf(p), map[], Nothing));
        (Enqueue(s2, JobsFor(id, SUBMIT, FirstCreated(s2.events, id), OnSubmit(s, pin))), Ok(id))
  }

  /** The submission and its pinned workflow, or why there is none. */
  function WorkflowFor(s: System, id: nat): Result<Workflow, Error> {
    if id >= |s.subs| then Err(NotFound)
    else if s.subs[id].workflow.None? || s.subs[id].workflow.value >= |s.workflows| then Err(NoWorkflow)
    else Ok(s.workflows[s.subs[id].workflow.value])
  }

  function DoTransition(fm: Formats, s: System, id: nat, p: Principal, input: Input): (System, Result<nat, Error>) {
    match WorkflowFor(s, id)
    case Err(e) => (s, Err(e))
    case Ok(w) =>
      var sub := s.subs[id];
      match Decide(fm, w, sub.state, sub.fields, p, input)
      case Err(e) => (s, Err(e))
      case Ok(m) =>
        if !Known(m.actions) then (s, Err(BadActionType))
        else
          var s1 := s.(subs := s.subs[id := sub.(state := m.to, fields := m.fields)]);
          var s2 := Append(s1, Event(id, Transitioned, sub.state, m.to, input.transition, ActorOf(Some(p)), m.changed,
                                   Words(Trim(fm.space, input.comment))));
          (Enqueue(s2, JobsFor(id, input.transition, |s2.events|, m.actions)), Ok(id))
  }

  function DoUpdate(fm: Formats, s: System, id: nat, p: Principal, patch: Fields): (System, Result<nat, Error>) {
    match WorkflowFor(s, id)
    case Err(e) => (s, Err(e))
    case Ok(w) =>
      var sub := s.subs[id];
      if IssuesOf(fm, w, patch) != map[] then (s, Err(BadFields(IssuesOf(fm, w, patch))))
      else
        var changed := Changed(fm, w, sub.fields, patch);
        if changed == map[] then (s, Ok(id))
        else
          var s1 := s.(subs := s.subs[id := sub.(fields := Merged(fm, w, sub.fields, patch))]);
          (Append(s1, Event(id, FieldsUpdated, "", "", "", ActorOf(Some(p)), changed, Nothing)), Ok(id))
  }

  /** An event that says nothing about state or fields. */
  function Note(id: nat, kind: EventKind, actor: Actor, detail: Detail): Event {
    Event(id, kind, "", "", "", actor, map[], detail)
  }

  function DoComment(fm: Formats, s: System, id: nat, p: Principal, body: string): (System, Result<nat, Error>) {
    var b := Trim(fm.space, body);
    if b == "" || |b| > MAX_COMMENT then (s, Err(BadComment))
    else if id >= |s.subs| then (s, Err(NotFound))
    else (Append(s, Note(id, Commented, ActorOf(Some(p)), Words(b))), Ok(id))
  }

  function Assignment(user: Option<nat>, name: Option<string>): Detail {
    if user.Some? && name.Some? then Assignee(user, name.value) else Assignee(None, "")
  }

  /** `name` is the name of the user, if there is such a user in the organisation. */
  function DoAssign(s: System, id: nat, p: Principal, user: Option<nat>, name: Option<string>)
    : (System, Result<nat, Error>)
  {
    if id >= |s.subs| then (s, Err(NotFound))
    else if user.Some? && name.None? then (s, Err(UnknownUser))
    else if s.subs[id].assignee == user then (s, Ok(id))
    else
      (Append(s.(subs := s.subs[id := s.subs[id].(assignee := user)]),
              Note(id, Assigned, ActorOf(Some(p)), Assignment(user, name))), Ok(id))
  }

  /** What action handlers write: an assignment, or the result of an action. */
  function DoRecord(s: System, id: nat, kind: EventKind, assignee: Option<nat>, detail: Detail)
    : (System, Result<nat, Error>)
    requires kind.Assigned? || kind.ActionSucceeded? || kind.ActionFailed?
  {
    if id >= |s.subs| then (s, Err(NotFound))
    else if kind.Assigned? then
      (Append(s.(subs := s.subs[id := s.subs[id].(assignee := assignee)]), Note(id, Assigned, SystemActor, detail)),
       Ok(id))
    else (Append(s, Note(id, kind, SystemActor, detail)), Ok(id))
  }

  // ---- the engine ------------------------------------------------------------------------------------

  class Engine {
    var workflows: seq<Workflow>
    var subs: seq<Submission>
    var events: seq<Event>
    var jobs: seq<Job>

    constructor ()
      ensures Tables() == System([], [], [], [])
    {
      workflows, subs, events, jobs := [], [], [], [];
    }

    ghost function Tables(): System
      reads this
    {
      System(workflows, subs, events, jobs)
    }

    /** Adds one job per action; an unknown action type aborts the transaction. */
    method EnqueueActions(id: nat, trigger: string, eventId: nat, actions: seq<Action>)
      returns (r: Result<seq<Job>, Error>)
      ensures r == if Known(actions) then Ok(JobsFor(id, trigger, eventId, actions)) else Err(BadActionType)
    {
      var added: seq<Job> := [];
      for i := 0 to |actions|
        invariant Known(actions[..i]) && added == JobsFor(id, trigger, eventId, actions[..i])
      {
        if actions[i].kind.UnknownAction? {
          return Err(BadActionType);
        }
        assert actions[..i + 1] == actions[..i] + [actions[i]];
        added := added + [Job(id, trigger, eventId, actions[i])];
      }
      assert actions[..|actions|] == actions;
      return Ok(added);
    }

    method FindCreated(log: seq<Event>, id: nat) returns (eventId: nat)
      ensures eventId == FirstCreated(log, id)
    {
      for i := 0 to |log|
        invariant FirstCreated(log[..i], id) == 0
      {
        assert log[..i + 1][..i] == log[..i];
        if log[i].submission == id && log[i].kind.Created? {
          FirstCreatedStays(log, id, i + 1);
          return i + 1;
        }
      }
      assert log[..|log|] == log;
      return 0;
    }

    /** A workflow version that the definition store has written. */
    method AddVersion(w: Workflow)
      modifies this`workflows
      ensures workflows == old(workflows) + [w]
    {
      workflows := workflows + [w];
    }

    method Create(fm: Formats, form: Form, pin: Option<nat>, data: map<string, Json>, requirePublic: bool,
            p: Option<Principal>)
      returns (r: Result<nat, Error>)
      requires pin.Some? ==> pin.value < |workflows|
      modifies this
      ensures (Tables(), r) == DoCreate(fm, old(Tables()), form, pin, data, requirePublic, p)
    {
      if requirePublic && !form.settings.isPublic {
        return Err(FormNotPublic);
      }
      var clean := S.ValidateSubmission(fm, form, data);
      if clean.Err? {
        return Err(Rejected(clean.error));
      }
      var state := SUBMITTED;
      var actions: seq<Action> := [];
      if pin.Some? {
        state, actions := workflows[pin.value].initial, workflows[pin.value].onSubmit;
      }
      var id := |subs|;
      var log := events + [Event(id, Created, "", state, "", ActorOf(p), map[], Nothing)];
      var eventId := FindCreated(log, id);
      var added := EnqueueActions(id, SUBMIT, eventId, actions);
      if added.Err? {
        return Err(added.error);
      }
      subs := subs + [Submission(pin, state, clean.value, map[], None)];
      events := log;
      jobs := jobs + added.value;
      return Ok(id);
    }

    method Transition(fm: Formats, id: nat, p: Principal, input: Input) returns (r: Result<nat, Error>)
      modifies this
      ensures (Tables(), r) == DoTransition(fm, old(Tables()), id, p, input)
    {
      hide IssuesOf, Merged, Changed, Missing, IsEmpty, HasAnyRole;
      if id >= |subs| {
        return Err(NotFound);
      }
      var sub := subs[id];
      if sub.workflow.None? || sub.workflow.value >= |workflows| {
        return Err(NoWorkflow);
      }
      var w := workflows[sub.workflow.value];
      var found := w.FindTransition(input.transition);
      if found.None? {
        return Err(UnknownTransition);
      }
      var t := found.value;
      if input.expectedState != "" && input.expectedState != sub.state {
        return Err(StateConflict);
      }
      if sub.state !in t.Sources() {
        return Err(InvalidState);
      }
      if !HasAnyRole(p, t.guard.roles) {
        return Err(Forbidden);
      }
      var merge := MergeFields(fm, w, sub.fields, input.patch);
      if merge.Err? {
        return Err(BadFields(merge.error));
      }
      var (merged, changed) := merge.value;
      var missing := ScanRequired(fm, merged, t.guard.requireFields);
      if missing != [] {
        return Err(MissingFields(missing));
      }
      var log := events + [Event(id, Transitioned, sub.state, t.to, input.transition, ActorOf(Some(p)), changed,
                               Words(Trim(fm.space, input.comment)))];
      var added := EnqueueActions(id, input.transition, |log|, t.actions);
      if added.Err? {
        return Err(added.error);
      }
      subs := subs[id := sub.(state := t.to, fields := merged)];
      events := log;
      jobs := jobs + added.value;
      return Ok(id);
    }

    method ScanRequired(fm: Formats, fields: Fields, required: seq<string>) returns (missing: seq<string>)
      ensures missing == Missing(fm, fields, required)
    {
      hide IsEmpty;
      missing := [];
      for i := 0 to |required|
        invariant missing == Missing(fm, fields, required[..i])
      {
        assert required[..i + 1][..i] == required[..i];
        if IsEmpty(fm, fields, required[i]) {
          missing := missing + [required[i]];
        }
      }
      assert required[..|required|] == required;
    }

    method UpdateFields(fm: Formats, id: nat, p: Principal, patch: Fields) returns (r: Result<nat, Error>)
      modifies this
      ensures (Tables(), r) == DoUpdate(fm, old(Tables()), id, p, patch)
    {
      hide IssuesOf, Merged, Changed;
      if id >= |subs| {
        return Err(NotFound);
      }
      var sub := subs[id];
      if sub.workflow.None? || sub.workflow.value >= |workflows| {
        return Err(NoWorkflow);
      }
      var merge := MergeFields(fm, workflows[sub.workflow.value], sub.fields, patch);
      if merge.Err? {
        return Err(BadFields(merge.error));
      }
      var (merged, changed) := merge.value;
      if changed != map[] {
        subs := subs[id := sub.(fields := merged)];
        events := events + [Event(id, FieldsUpdated, "", "", "", ActorOf(Some(p)), changed, Nothing)];
      }
      return Ok(id);
    }

    method Comment(fm: Formats, id: nat, p: Principal, body: string) returns (r: Result<nat, Error>)
      modifies this
      ensures (Tables(), r) == DoComment(fm, old(Tables()), id, p, body)
    {
      var b := Trim(fm.space, body);
      if b == "" || |b| > MAX_COMMENT {
        return Err(BadComment);
      }
      if id >= |subs| {
        return Err(NotFound);
      }
      events := events + [Note(id, Commented, ActorOf(Some(p)), Words(b))];
      return Ok(id);
    }

    method Assign(id: nat, p: Principal, user: Option<nat>, name: Option<string>) returns (r: Result<nat, Error>)
      modifies this
      ensures (Tables(), r) == DoAssign(old(Tables()), id, p, user, name)
    {
      if id >= |subs| {
        return Err(NotFound);
      }
      if user.Some? && name.None? {
        return Err(UnknownUser);
      }
      if subs[id].assignee != user {
        subs := subs[id := subs[id].(assignee := user)];
        events := events + [Note(id, Assigned, ActorOf(Some(p)), Assignment(user, name))];
      }
      return Ok(id);
    }

    /** The transitions that leave the current state, each with whether the principal may perform it. */
    method Available(p: Principal, sub: Submission) returns (out: seq<Offer>)
      requires sub.workflow.Some? ==> sub.workflow.value < |workflows|
      ensures out ==
              if sub.workflow.None? then []
              else Offers(workflows[sub.workflow.value], workflows[sub.workflow.value].TransitionList(), sub.state, p)
    {
      if sub.workflow.None? {
        return [];
      }
      var w := workflows[sub.workflow.value];
      var ts := w.TransitionList();
      out := [];
      for i := 0 to |ts|
        invariant out == Offers(w, ts[..i], sub.state, p)
      {
        assert ts[..i + 1][..i] == ts[..i];
        if sub.state in ts[i].Sources() {
          out := out + [OfferOf(w, ts[i], p)];
        }
      }
      assert ts[..|ts|] == ts;
    }
  }

  lemma {:induction false} FirstCreatedStays(log: seq<Event>, id: nat, n: nat)
    requires n <= |log| && FirstCreated(log[..n], id) != 0
    ensures FirstCreated(log, id) == FirstCreated(log[..n], id)
  {
    if n < |log| {
      var front := log[..|log| - 1];
      assert front[..n] == log[..n];
      FirstCreatedStays(front, id, n);
    } else {
      assert log[..n] == log;
    }
  }

  datatype Offer = Offer(
    key: string, caption: string, to: string, toCaption: string, requireFields: seq<string>, allowed: bool)

  function OfferOf(w: Workflow, t: Transition, p: Principal): Offer {
    Offer(t.key, t.caption, t.to, if w.FindState(t.to).Some? then w.FindState(t.to).value.caption else "",
          t.guard.requireFields, HasAnyRole(p, t.guard.roles))
  }

  function Offers(w: Workflow, ts: seq<Transition>, state: string, p: Principal): seq<Offer> {
    if ts == [] then []
    else
      var t := ts[|ts| - 1];
      Offers(w, ts[..|ts| - 1], state, p) + if state in t.Sources() then [OfferOf(w, t, p)] else []
  }
}
