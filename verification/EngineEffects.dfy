/** What each engine call writes, column by column, and why it refuses; and what a submission holds from its creation
    on. */
module EngineEffects {
  import opened Common
  import opened Definitions
  import opened Engine
  import opened EngineRuns
  import opened FieldPatches
  import opened JsonValues
  import opened Text
  import D = Definitions
  import S = Submissions

  /** Whom an event names: the respondent, or the principal by name or, without one, by e-mail. */
  lemma ActorNames(p: Principal)
    ensures ActorOf(None) == Respondent
    ensures p.name != "" ==> ActorOf(Some(p)) == if p.isApiKey then ApiKey(p.id, p.name) else User(p.id, p.name)
    ensures p.name == "" ==> ActorOf(Some(p)) == if p.isApiKey then ApiKey(p.id, p.email) else User(p.id, p.email)
  {
  }

  /** The log has grown by one event, and nothing in it has changed. */
  ghost predicate OneMoreEvent(s: System, s': System, id: nat, kind: EventKind) {
    |s'.events| == |s.events| + 1 && s'.events[..|s.events|] == s.events &&
    s'.events[|s.events|].submission == id && s'.events[|s.events|].kind == kind
  }

  /** No other submission has changed, and this one still has its answers and its workflow. */
  ghost predicate OnlyTouches(s: System, s': System, id: nat)
    requires id < |s.subs|
  {
    s'.workflows == s.workflows && |s'.subs| == |s.subs| &&
    (forall i :: 0 <= i < |s.subs| && i != id ==> s'.subs[i] == s.subs[i]) &&
    s'.subs[id].data == s.subs[id].data && s'.subs[id].workflow == s.subs[id].workflow
  }

  /** Jobs are added at the end, one per action and in order. */
  ghost predicate Queues(s: System, s': System, id: nat, trigger: string, eventId: nat, actions: seq<Action>) {
    |s'.jobs| == |s.jobs| + |actions| && s'.jobs[..|s.jobs|] == s.jobs &&
    forall i :: 0 <= i < |actions| ==>
      var j := s'.jobs[|s.jobs| + i];
      j.submission == id && j.trigger == trigger && j.eventId == eventId && j.action == actions[i]
  }

  // ---- creation ---------------------------------------------------------------------------------------

  /** A submission is created exactly if the form may be used, every visible answer is fine and every action has a
      handler. */
  lemma CreatedExactlyWhen(fm: Formats, s: System, form: Form, pin: Option<nat>, data: map<string, Json>,
        requirePublic: bool, p: Option<Principal>)
    requires pin.Some? ==> pin.value < |s.workflows|
    ensures var r := DoCreate(fm, s, form, pin, data, requirePublic, p);
            (r.1.Ok? <==>
             (requirePublic ==> form.settings.isPublic) && S.Pass(fm, data, form.FieldList()).findings == [] &&
             (pin.Some? ==> forall a :: a in s.workflows[pin.value].onSubmit ==> !a.kind.UnknownAction?)) &&
            (r.1.Err? ==> r.0 == s)
  {
    hide S.Pass;
    var actions := OnSubmit(s, pin);
    forall i | 0 <= i < |actions| ensures actions[i] in actions {}
  }

  /** What a created submission holds: the pin and the initial state, no workflow fields, no assignee, and the one
      solution of the form's equations for the answers. So it holds no answer that was not given, none to a hidden
      field, and validating it again gives it back. Nothing else changes but the log and the queue. */
  lemma CreatedHoldsTheAnswers(fm: Formats, s: System, form: Form, pin: Option<nat>, data: map<string, Json>,
        requirePublic: bool, p: Option<Principal>)
    requires (pin.Some? ==> pin.value < |s.workflows|) && S.Ordered(form.FieldList())
    requires DoCreate(fm, s, form, pin, data, requirePublic, p).1.Ok?
    ensures var (s', r) := DoCreate(fm, s, form, pin, data, requirePublic, p);
            r.value == |s.subs| && s'.workflows == s.workflows && |s'.subs| == |s.subs| + 1 &&
            s'.subs[..|s.subs|] == s.subs &&
            var row, fields := s'.subs[|s.subs|], form.FieldList();
            row.workflow == pin && row.fields == map[] && row.assignee == None &&
            row.state == (if pin.None? then "submitted" else s.workflows[pin.value].initial) &&
            (exists vis :: S.Solves(fm, data, fields, vis, row.data)) &&
            (forall k :: k in row.data ==> k in data && exists i :: 0 <= i < |fields| && fields[i].key == k) &&
            S.Pass(fm, row.data, fields).clean == row.data && S.Pass(fm, row.data, fields).findings == []
  {
    hide S.Pass, S.Solves, S.Ordered;
    var fields := form.FieldList();
    S.AcceptedAgain(fm, fields, data);
    S.PassSolves(fm, data, fields);
  }

  /** The event of a creation and its jobs. */
  lemma CreateTells(fm: Formats, s: System, form: Form, pin: Option<nat>, data: map<string, Json>,
        requirePublic: bool, p: Option<Principal>)
    requires Inv(fm, s) && (pin.Some? ==> pin.value < |s.workflows|)
    requires DoCreate(fm, s, form, pin, data, requirePublic, p).1.Ok?
    ensures var s' := DoCreate(fm, s, form, pin, data, requirePublic, p).0;
            OneMoreEvent(s, s', |s.subs|, Created) &&
            var e := s'.events[|s.events|];
            e.from == "" && e.to == (if pin.None? then "submitted" else s.workflows[pin.value].initial) &&
            e.transition == "" && e.actor == ActorOf(p) && e.changed == map[] && e.detail == Nothing &&
            Queues(s, s', |s.subs|, "submit", |s.events| + 1,
                   if pin.None? then [] else s.workflows[pin.value].onSubmit)
  {
    hide S.Pass, Inv;
    var s' := DoCreate(fm, s, form, pin, data, requirePublic, p).0;
    CreatedIsFound(s, Event(|s.subs|, Created, "", InitialState(s, pin), "", ActorOf(p), map[], Nothing), fm);
  }

  /** From then on the answers stay as they are: no call of any run changes them, or the workflow that a submission is
      pinned to, or forgets a submission, a workflow version, an event or a job. */
  lemma {:induction false} AnswersAreKept(fm: Formats, s: System, ops: seq<Op>)
    requires PossibleRun(fm, s, ops)
    ensures var s' := Run(fm, s, ops);
            |s.subs| <= |s'.subs| && s.workflows <= s'.workflows && s.events <= s'.events && s.jobs <= s'.jobs &&
            forall id :: 0 <= id < |s.subs| ==>
              s'.subs[id].data == s.subs[id].data && s'.subs[id].workflow == s.subs[id].workflow
    decreases |ops|
  {
    hide Next, Possible;
    if ops != [] {
      OneCallKeepsAnswers(fm, s, ops[0]);
      AnswersAreKept(fm, Next(fm, s, ops[0]), ops[1..]);
    }
  }

  lemma OneCallKeepsAnswers(fm: Formats, s: System, op: Op)
    requires Possible(fm, s, op)
    ensures var s' := Next(fm, s, op);
            |s.subs| <= |s'.subs| && s.workflows <= s'.workflows && s.events <= s'.events && s.jobs <= s'.jobs &&
            forall id :: 0 <= id < |s.subs| ==>
              s'.subs[id].data == s.subs[id].data && s'.subs[id].workflow == s.subs[id].workflow
  {
    hide Decide, FirstCreated, S.Pass, Merged, Changed, IssuesOf;
  }

  // ---- transitions ----------------------------------------------------------------------------------------

  /** Why a transition is refused: the first of these reasons that applies. */
  lemma RefusalReasons(fm: Formats, w: Workflow, state: string, fields: Fields, p: Principal, input: Input)
    ensures var r, found := Decide(fm, w, state, fields, p, input), w.FindTransition(input.transition);
            (found.None? <==> r == Err(UnknownTransition)) &&
            (found.Some? ==>
               var t, m := found.value, Merged(fm, w, fields, input.patch);
               var elsewhere := input.expectedState != "" && input.expectedState != state;
               var allowed := t.guard.roles == [] || "admin" in p.roles ||
                 exists x :: x in t.guard.roles && x in p.roles;
               (elsewhere <==> r == Err(StateConflict)) &&
               (!elsewhere && state !in t.Sources() <==> r == Err(InvalidState)) &&
               (!elsewhere && state in t.Sources() && !allowed <==> r == Err(Forbidden)) &&
               (!elsewhere && state in t.Sources() && allowed ==>
                  if exists k :: k in input.patch && CheckEntry(fm, w, k, input.patch[k]).Err? then
                    r.Err? && r.error.BadFields? &&
                    forall k :: k in r.error.issues <==> k in input.patch && CheckEntry(fm, w, k, input.patch[k]).Err?
                  else if exists k :: k in t.guard.requireFields && !Given(fm, m, k) then
                    r.Err? && r.error.MissingFields? &&
                    forall k :: k in r.error.fields <==> k in t.guard.requireFields && !Given(fm, m, k)
                  else r == Ok(Move(t.to, m, Changed(fm, w, fields, input.patch), t.actions))))
  {
    hide CheckEntry, Merged, Changed, IsEmpty, Given;
    var found := w.FindTransition(input.transition);
    if found.Some? {
      var t, m := found.value, Merged(fm, w, fields, input.patch);
      RolesAllow(p, t.guard.roles);
      IssuesAre(fm, w, input.patch);
      MissingAre(fm, m, t.guard.requireFields);
    }
  }

  lemma RolesAllow(p: Principal, roles: seq<string>)
    ensures HasAnyRole(p, roles) <==> roles == [] || "admin" in p.roles || exists x :: x in roles && x in p.roles
  {
    if x :| x in roles && x in p.roles {
      var i :| 0 <= i < |roles| && roles[i] == x;
    }
  }

  lemma IssuesAre(fm: Formats, w: Workflow, patch: Fields)
    ensures forall k :: k in IssuesOf(fm, w, patch) <==> k in patch && CheckEntry(fm, w, k, patch[k]).Err?
    ensures IssuesOf(fm, w, patch) == map[] <==>
            !exists k :: k in patch && CheckEntry(fm, w, k, patch[k]).Err?
  {
    hide CheckEntry;
    if k :| k in patch && CheckEntry(fm, w, k, patch[k]).Err? {
      assert k in IssuesOf(fm, w, patch);
    }
  }

  lemma {:induction false} MissingAre(fm: Formats, fields: Fields, required: seq<string>)
    ensures forall k :: k in Missing(fm, fields, required) <==> k in required && !Given(fm, fields, k)
    ensures Missing(fm, fields, required) == [] <==> !exists k :: k in required && !Given(fm, fields, k)
  {
    hide Given, IsEmpty;
    if required != [] {
      var n := |required| - 1;
      MissingAre(fm, fields, required[..n]);
      GivenIs(fm, fields, required[n]);
      assert required == required[..n] + [required[n]];
    }
  }

  /** An accepted transition writes the new state and fields of its submission, one event and the jobs of its actions;
      a refused one writes nothing. */
  lemma TransitionWrites(fm: Formats, s: System, id: nat, p: Principal, input: Input)
    ensures var (s', r) := DoTransition(fm, s, id, p, input);
            (r.Err? ==> s' == s) &&
            (r.Ok? ==>
               r.value == id && WorkflowFor(s, id).Ok? && OnlyTouches(s, s', id) &&
               var w, was := WorkflowFor(s, id).value, s.subs[id];
               Decide(fm, w, was.state, was.fields, p, input).Ok? &&
               var m := Decide(fm, w, was.state, was.fields, p, input).value;
               s'.subs[id].state == m.to && s'.subs[id].fields == m.fields && s'.subs[id].assignee == was.assignee &&
               OneMoreEvent(s, s', id, Transitioned) &&
               var e := s'.events[|s.events|];
               e.from == was.state && e.to == m.to && e.transition == input.transition && e.actor == ActorOf(Some(p)) &&
               e.changed == m.changed && e.detail == Words(Trim(fm.space, input.comment)) &&
               Queues(s, s', id, input.transition, |s.events| + 1, m.actions))
  {
    hide Decide;
  }

  /** Without a submission or its workflow there is nothing to decide. */
  lemma WorkflowForIs(s: System, id: nat)
    ensures WorkflowFor(s, id) == Err(NotFound) <==> id >= |s.subs|
    ensures id < |s.subs| && s.subs[id].workflow.None? ==> WorkflowFor(s, id) == Err(NoWorkflow)
    ensures id < |s.subs| && s.subs[id].workflow.Some? && s.subs[id].workflow.value < |s.workflows| ==>
              WorkflowFor(s, id) == Ok(s.workflows[s.subs[id].workflow.value])
  {
  }

  // ---- the other calls ----------------------------------------------------------------------------------------

  /** An edit of the fields that changes them writes them and one event with the change; one that changes nothing, or
      is refused, writes nothing. */
  lemma UpdateWrites(fm: Formats, s: System, id: nat, p: Principal, patch: Fields)
    ensures var (s', r) := DoUpdate(fm, s, id, p, patch);
            (r.Ok? <==>
             WorkflowFor(s, id).Ok? &&
             forall k :: k in patch ==> CheckEntry(fm, WorkflowFor(s, id).value, k, patch[k]).Ok?) &&
            (r.Err? ==> s' == s) &&
            (r.Ok? ==>
               r.value == id &&
               var w, was := WorkflowFor(s, id).value, s.subs[id];
               if Changed(fm, w, was.fields, patch) == map[] then s' == s
               else
                 OnlyTouches(s, s', id) && s'.jobs == s.jobs && s'.subs[id].state == was.state &&
                 s'.subs[id].assignee == was.assignee && s'.subs[id].fields == Merged(fm, w, was.fields, patch) &&
                 OneMoreEvent(s, s', id, FieldsUpdated) &&
                 var e := s'.events[|s.events|];
                 e.from == "" && e.to == "" && e.transition == "" && e.actor == ActorOf(Some(p)) &&
                 e.changed == Changed(fm, w, was.fields, patch) && e.detail == Nothing)
  {
    hide CheckEntry, Merged, Changed;
    if WorkflowFor(s, id).Ok? {
      IssuesAre(fm, WorkflowFor(s, id).value, patch);
      forall k | k in patch ensures CheckEntry(fm, WorkflowFor(s, id).value, k, patch[k]).Ok? <==>
                                    !CheckEntry(fm, WorkflowFor(s, id).value, k, patch[k]).Err? {}
    }
  }

  /** A comment is one event with the trimmed text, if there is any and it is not too long. */
  lemma CommentWrites(fm: Formats, s: System, id: nat, p: Principal, body: string)
    ensures var (s', r), text := DoComment(fm, s, id, p, body), Trim(fm.space, body);
            (r.Ok? <==> id < |s.subs| && 0 < |text| <= 10000) && (r.Err? ==> s' == s) &&
            (r.Ok? ==>
               s'.workflows == s.workflows && s'.subs == s.subs && s'.jobs == s.jobs &&
               OneMoreEvent(s, s', id, Commented) &&
               var e := s'.events[|s.events|];
               e.detail == Words(text) && e.actor == ActorOf(Some(p)) && e.to == "" && e.changed == map[])
  {
  }

  /** An assignment to another user, or to none, writes the assignee and one event; an unknown user is refused. */
  lemma AssignWrites(s: System, id: nat, p: Principal, user: Option<nat>, name: Option<string>)
    ensures var (s', r) := DoAssign(s, id, p, user, name);
            (r.Ok? <==> id < |s.subs| && (user.Some? ==> name.Some?)) && (r.Err? ==> s' == s) &&
            (r.Ok? && s.subs[id].assignee == user ==> s' == s) &&
            (r.Ok? && s.subs[id].assignee != user ==>
               OnlyTouches(s, s', id) && s'.jobs == s.jobs && s'.subs[id].assignee == user &&
               s'.subs[id].state == s.subs[id].state && s'.subs[id].fields == s.subs[id].fields &&
               OneMoreEvent(s, s', id, Assigned) &&
               var e := s'.events[|s.events|];
               e.actor == ActorOf(Some(p)) && e.to == "" && e.changed == map[] &&
               e.detail == (if user.Some? then Assignee(user, name.value) else Assignee(None, "")))
  {
  }

  /** What a handler records is one event by the system, and for an assignment the assignee. */
  lemma RecordWrites(s: System, id: nat, kind: EventKind, assignee: Option<nat>, detail: Detail)
    requires kind.Assigned? || kind.ActionSucceeded? || kind.ActionFailed?
    ensures var (s', r) := DoRecord(s, id, kind, assignee, detail);
            (r.Ok? <==> id < |s.subs|) && (r.Err? ==> s' == s) &&
            (r.Ok? ==>
               OnlyTouches(s, s', id) && s'.jobs == s.jobs && s'.subs[id].state == s.subs[id].state &&
               s'.subs[id].fields == s.subs[id].fields &&
               s'.subs[id].assignee == (if kind.Assigned? then assignee else s.subs[id].assignee) &&
               OneMoreEvent(s, s', id, kind) &&
               var e := s'.events[|s.events|];
               e.actor == SystemActor && e.detail == detail && e.to == "" && e.changed == map[])
  {
  }

  // ---- what is offered ------------------------------------------------------------------------------------------

  /** An offer names its transition, with the caption of the state that it leads to. */
  ghost predicate Names(w: Workflow, t: Transition, p: Principal, o: Offer) {
    o.key == t.key && o.caption == t.caption && o.to == t.to && o.requireFields == t.guard.requireFields &&
    (o.allowed <==> t.guard.roles == [] || "admin" in p.roles || exists x :: x in t.guard.roles && x in p.roles) &&
    (if exists s :: s in w.StateList() && s.key == t.to
     then exists s :: s in w.StateList() && s.key == t.to && o.toCaption == s.caption else o.toCaption == "")
  }

  /** The offers are those of the transitions that leave the state, in their order. */
  lemma {:induction false} OffersName(w: Workflow, ts: seq<Transition>, state: string, p: Principal)
    returns (leaving: seq<nat>)
    ensures |leaving| == |Offers(w, ts, state, p)|
    ensures forall i, j :: 0 <= i < j < |leaving| ==> leaving[i] < leaving[j]
    ensures forall i :: 0 <= i < |leaving| ==>
              leaving[i] < |ts| && state in ts[leaving[i]].Sources() &&
              Names(w, ts[leaving[i]], p, Offers(w, ts, state, p)[i])
    ensures forall k :: 0 <= k < |ts| && state in ts[k].Sources() ==> k in leaving
  {
    hide Names, OfferOf;
    leaving := [];
    if ts != [] {
      var n := |ts| - 1;
      leaving := OffersName(w, ts[..n], state, p);
      if state in ts[n].Sources() {
        OfferNames(w, ts[n], p);
        leaving := leaving + [n];
      }
    }
  }

  lemma OfferNames(w: Workflow, t: Transition, p: Principal)
    ensures Names(w, t, p, OfferOf(w, t, p))
  {
    hide HasAnyRole;
    RolesAllow(p, t.guard.roles);
    if s :| s in w.StateList() && s.key == t.to {
      var i :| 0 <= i < |w.StateList()| && w.StateList()[i] == s;
    }
  }
}
