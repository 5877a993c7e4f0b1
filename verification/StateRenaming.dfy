/** Renaming a state in the workflow editor is a bisimulation for the engine. */
module StateRenaming {
  import opened Common
  import opened JsonValues
  import opened Text
  import opened Definitions
  import D = Definitions
  import opened DefinitionRules
  import opened FieldPatches
  import opened Engine
  import opened EngineRuns
  import R = WorkflowReducer
  import S = Submissions

  // ---- the exchange of two state keys --------------------------------------------------------------------

  function SwapAll(a: string, b: string, keys: seq<string>): seq<string> {
    seq(|keys|, i requires 0 <= i < |keys| => Swap(a, b, keys[i]))
  }

  function SwapTransition(a: string, b: string, t: D.Transition): D.Transition {
    t.(from := if t.from.None? then None else Some(SwapAll(a, b, t.from.value)), to := Swap(a, b, t.to))
  }

  function SwapTransitions(a: string, b: string, ts: seq<D.Transition>): seq<D.Transition> {
    seq(|ts|, i requires 0 <= i < |ts| => SwapTransition(a, b, ts[i]))
  }

  function SwapStates(a: string, b: string, ss: seq<State>): seq<State> {
    seq(|ss|, i requires 0 <= i < |ss| => ss[i].(key := Swap(a, b, ss[i].key)))
  }

  function SwapWorkflow(a: string, b: string, w: Workflow): Workflow {
    w.(initial := Swap(a, b, w.initial),
       states := if w.states.None? then None else Some(SwapStates(a, b, w.states.value)),
       transitions := if w.transitions.None? then None else Some(SwapTransitions(a, b, w.transitions.value)))
  }

  lemma SwapAllIsInvolution(a: string, b: string, keys: seq<string>)
    ensures SwapAll(a, b, SwapAll(a, b, keys)) == keys
  {
  }

  lemma SwapTransitionIsInvolution(a: string, b: string, t: D.Transition)
    ensures SwapTransition(a, b, SwapTransition(a, b, t)) == t
  {
    if t.from.Some? { SwapAllIsInvolution(a, b, t.from.value); }
  }

  lemma SwapWorkflowIsInvolution(a: string, b: string, w: Workflow)
    ensures SwapWorkflow(a, b, SwapWorkflow(a, b, w)) == w
  {
    hide SwapTransition;
    if w.states.Some? {
      assert SwapStates(a, b, SwapStates(a, b, w.states.value)) == w.states.value;
    }
    if w.transitions.Some? {
      var ts := w.transitions.value;
      forall i | 0 <= i < |ts| { SwapTransitionIsInvolution(a, b, ts[i]); }
      assert SwapTransitions(a, b, SwapTransitions(a, b, ts)) == ts;
    }
  }

  // ---- the reducer's rename is an exchange -----------------------------------------------------------------

  lemma {:induction false} KeyCountsOnce(ss: seq<State>, index: nat)
    requires index < |ss| && forall i, j :: 0 <= i < j < |ss| ==> ss[i].key != ss[j].key
    ensures R.CountStates(ss, ss[index].key) == 1
  {
    if index == 0 {
      assert ss[0].key !in StateKeys(ss[1..]);
    } else {
      KeyCountsOnce(ss[1..], index - 1);
    }
  }

  lemma KeysAreDistinct(fm: Formats, w: Workflow)
    requires ValidWorkflow(fm, w)
    ensures forall i, j :: 0 <= i < j < |w.StateList()| ==> w.StateList()[i].key != w.StateList()[j].key
  {
    hide IsKey, TransitionOk, WorkflowFieldOk, AllActionsOk;
    forall i, j | 0 <= i < j < |w.StateList()| ensures w.StateList()[i].key != w.StateList()[j].key {
      assert StateOk(fm, w.StateList(), j);
    }
  }

  lemma RedirectedIsSwapped(was: string, key: string, t: D.Transition)
    requires t.from.Some? && key !in t.Sources() && t.to != key
    ensures R.RedirectedOne(t, was, key) == SwapTransition(was, key, t)
  {
    assert R.Replaced(t.Sources(), was, key) == SwapAll(was, key, t.Sources());
  }

  /** First for workflows whose lists are present. */
  lemma ListedRenameIsSwap(fm: Formats, w: Workflow, index: nat, key: string)
    requires ValidWorkflow(fm, w) && w.transitions.Some? && index < |w.StateList()| && key !in StateKeys(w.StateList())
    ensures R.StateRenamed(w, index, key) == SwapWorkflow(w.StateList()[index].key, key, w)
  {
    hide ValidWorkflow, StateKeys, R.RedirectedOne, SwapTransition;
    var ss, ts := w.StateList(), w.TransitionList();
    var was := ss[index].key;
    KeysAreDistinct(fm, w);
    KeyCountsOnce(ss, index);
    DeclaredKeys(fm, w, key);
    assert ss[index := ss[index].(key := key)] == SwapStates(was, key, ss);
    forall i | 0 <= i < |ts| ensures R.RedirectedOne(ts[i], was, key) == SwapTransition(was, key, ts[i]) {
      RedirectedIsSwapped(was, key, ts[i]);
    }
    assert R.Redirected(ts, was, key) == SwapTransitions(was, key, ts);
  }

  /** A key that no state has occurs nowhere in a valid workflow. */
  lemma DeclaredKeys(fm: Formats, w: Workflow, key: string)
    requires ValidWorkflow(fm, w) && key !in StateKeys(w.StateList())
    ensures w.initial != key && w.states.Some? && forall i :: 0 <= i < |w.StateList()| ==> w.StateList()[i].key != key
    ensures forall i :: 0 <= i < |w.TransitionList()| ==>
              var t := w.TransitionList()[i]; t.from.Some? && key !in t.Sources() && t.to != key
  {
    hide IsKey, StateOk, WorkflowFieldOk, AllActionsOk, GuardOk;
    forall i | 0 <= i < |w.TransitionList()|
      ensures var t := w.TransitionList()[i]; t.from.Some? && key !in t.Sources() && t.to != key
    {
      assert TransitionOk(fm, w, i);
      OpenKeysAreKeys(w.StateList());
    }
  }

  lemma OpenKeysAreKeys(ss: seq<State>)
    ensures OpenStateKeys(ss) <= StateKeys(ss)
  {
  }

  // ---- validity and back ---------------------------------------------------------------------------------

  lemma SwappedKeys(a: string, b: string, ss: seq<State>, k: string)
    ensures Swap(a, b, k) in StateKeys(SwapStates(a, b, ss)) <==> k in StateKeys(ss)
    ensures Swap(a, b, k) in OpenStateKeys(SwapStates(a, b, ss)) <==> k in OpenStateKeys(ss)
  {
    var r := SwapStates(a, b, ss);
    if k in StateKeys(ss) {
      var i :| 0 <= i < |ss| && ss[i].key == k;
      assert r[i].key == Swap(a, b, k);
    }
    if k in OpenStateKeys(ss) {
      var i :| 0 <= i < |ss| && !ss[i].terminal && ss[i].key == k;
      assert r[i].key == Swap(a, b, k) && !r[i].terminal;
    }
  }

  lemma SwapKeepsTransition(fm: Formats, w: Workflow, a: string, b: string, i: nat)
    requires i < |w.TransitionList()| && TransitionOk(fm, w, i)
    ensures TransitionOk(fm, SwapWorkflow(a, b, w), i)
  {
    hide IsKey, GuardOk, AllActionsOk, StateKeys, OpenStateKeys;
    var w' := SwapWorkflow(a, b, w);
    var t, t' := w.TransitionList()[i], w'.TransitionList()[i];
    assert w'.StateList() == SwapStates(a, b, w.StateList());
    assert t' == SwapTransition(a, b, t) && t'.Sources() == SwapAll(a, b, t.Sources());
    forall j | 0 <= j < |t.Sources()| ensures t'.Sources()[j] in OpenStateKeys(w'.StateList()) {
      SwappedKeys(a, b, w.StateList(), t.Sources()[j]);
    }
    SwappedKeys(a, b, w.StateList(), t.to);
  }

  lemma SwapKeepsState(fm: Formats, ss: seq<State>, a: string, b: string, i: nat)
    requires i < |ss| && StateOk(fm, ss, i) && (ss[i].key == a ==> IsKey(b)) && (ss[i].key == b ==> IsKey(a))
    ensures StateOk(fm, SwapStates(a, b, ss), i)
  {
    hide IsKey;
  }

  lemma ListedRenameStaysValid(fm: Formats, w: Workflow, index: nat, key: string)
    requires ValidWorkflow(fm, w) && w.transitions.Some? && index < |w.StateList()| && key !in StateKeys(w.StateList())
    ensures ValidWorkflow(fm, R.StateRenamed(w, index, key)) <==> IsKey(key)
  {
    hide IsKey, TransitionOk, StateOk, WorkflowFieldOk, AllActionsOk, StateKeys, R.StateRenamed, Blank, IsSlug;
    ListedRenameIsSwap(fm, w, index, key);
    var ss, was := w.StateList(), w.StateList()[index].key;
    var w' := SwapWorkflow(was, key, w);
    assert w'.StateList() == SwapStates(was, key, ss);
    if IsKey(key) {
      KeyAt(fm, w, index);
      forall i | 0 <= i < |ss| ensures StateOk(fm, w'.StateList(), i) {
        assert StateOk(fm, ss, i);
        DeclaredKeys(fm, w, key);
        SwapKeepsState(fm, ss, was, key, i);
      }
      SwappedKeys(was, key, ss, w.initial);
      forall i | 0 <= i < |w'.TransitionList()| ensures TransitionOk(fm, w', i) {
        assert TransitionOk(fm, w, i);
        SwapKeepsTransition(fm, w, was, key, i);
      }
    } else {
      StateOkMeansKey(fm, w'.StateList(), index);
      assert !StateOk(fm, w'.StateList(), index);
    }
  }

  lemma KeyAt(fm: Formats, w: Workflow, index: nat)
    requires ValidWorkflow(fm, w) && index < |w.StateList()|
    ensures IsKey(w.StateList()[index].key)
  {
    hide TransitionOk, WorkflowFieldOk, AllActionsOk;
    assert StateOk(fm, w.StateList(), index);
  }

  lemma StateOkMeansKey(fm: Formats, ss: seq<State>, i: nat)
    requires i < |ss|
    ensures StateOk(fm, ss, i) ==> IsKey(ss[i].key)
  {
  }

  lemma ListedRenameBack(fm: Formats, w: Workflow, index: nat, key: string)
    requires ValidWorkflow(fm, w) && w.transitions.Some? && index < |w.StateList()| &&
             key !in StateKeys(w.StateList()) && IsKey(key)
    ensures R.StateRenamed(R.StateRenamed(w, index, key), index, w.StateList()[index].key) == w
  {
    hide ValidWorkflow, StateKeys, R.StateRenamed, IsKey;
    var was := w.StateList()[index].key;
    var w' := R.StateRenamed(w, index, key);
    ListedRenameIsSwap(fm, w, index, key);
    ListedRenameStaysValid(fm, w, index, key);
    assert w'.StateList() == SwapStates(was, key, w.StateList());
    SwappedKeys(was, key, w.StateList(), key);
    ListedRenameIsSwap(fm, w', index, was);
    SwapIsSymmetric(was, key, w');
    SwapWorkflowIsInvolution(was, key, w);
  }

  lemma SwapIsSymmetric(a: string, b: string, w: Workflow)
    ensures SwapWorkflow(a, b, w) == SwapWorkflow(b, a, w)
  {
    if w.states.Some? { assert SwapStates(a, b, w.states.value) == SwapStates(b, a, w.states.value); }
    if w.transitions.Some? {
      var ts := w.transitions.value;
      forall i | 0 <= i < |ts| ensures SwapTransition(a, b, ts[i]) == SwapTransition(b, a, ts[i]) {
        if ts[i].from.Some? { assert SwapAll(a, b, ts[i].from.value) == SwapAll(b, a, ts[i].from.value); }
      }
      assert SwapTransitions(a, b, ts) == SwapTransitions(b, a, ts);
    }
  }

  // ---- every valid workflow ------------------------------------------------------------------------------

  /** What the editor makes of a stored workflow when a state is renamed. */
  function Edited(w: Workflow, index: nat, key: string): Workflow
    requires index < |w.StateList()|
  {
    R.StateRenamed(R.Normalized(w), index, key)
  }

  lemma NormalizedIsValid(fm: Formats, w: Workflow)
    requires ValidWorkflow(fm, w)
    ensures ValidWorkflow(fm, R.Normalized(w)) && R.Normalized(w).transitions.Some?
  {
    hide StateOk, WorkflowFieldOk, AllActionsOk, GuardOk, StateKeys, OpenStateKeys, IsKey, Blank, IsSlug;
    var n := R.Normalized(w);
    R.NormalizedKeepsMeaning(w);
    forall i | 0 <= i < |n.TransitionList()| ensures TransitionOk(fm, n, i) {
      assert TransitionOk(fm, w, i);
    }
  }

  /** In a valid workflow, renaming a state to a key that no state has exchanges the two keys everywhere. */
  lemma RenameIsSwap(fm: Formats, w: Workflow, index: nat, key: string)
    requires ValidWorkflow(fm, w) && index < |w.StateList()| && key !in StateKeys(w.StateList())
    ensures Edited(w, index, key) == SwapWorkflow(w.StateList()[index].key, key, R.Normalized(w))
  {
    hide ValidWorkflow, StateKeys, SwapWorkflow, R.StateRenamed;
    NormalizedIsValid(fm, w);
    ListedRenameIsSwap(fm, R.Normalized(w), index, key);
  }

  /** The renamed workflow is valid exactly when the new key is well formed. */
  lemma RenameStaysValid(fm: Formats, w: Workflow, index: nat, key: string)
    requires ValidWorkflow(fm, w) && index < |w.StateList()| && key !in StateKeys(w.StateList())
    ensures ValidWorkflow(fm, Edited(w, index, key)) <==> IsKey(key)
  {
    hide ValidWorkflow, StateKeys, R.StateRenamed, IsKey;
    NormalizedIsValid(fm, w);
    ListedRenameStaysValid(fm, R.Normalized(w), index, key);
  }

  /** Renaming back restores the definition. */
  lemma RenameBack(fm: Formats, w: Workflow, index: nat, key: string)
    requires ValidWorkflow(fm, w) && index < |w.StateList()| && key !in StateKeys(w.StateList()) && IsKey(key)
    ensures index < |Edited(w, index, key).StateList()|
    ensures R.StateRenamed(Edited(w, index, key), index, w.StateList()[index].key) == R.Normalized(w)
  {
    hide ValidWorkflow, StateKeys, R.StateRenamed, IsKey;
    NormalizedIsValid(fm, w);
    RenameIsSwap(fm, w, index, key);
    assert |SwapStates(w.StateList()[index].key, key, w.StateList())| == |w.StateList()|;
    ListedRenameBack(fm, R.Normalized(w), index, key);
  }

  /** w' is w with two state keys exchanged, as far as the engine can see. */
  ghost predicate Renames(a: string, b: string, w: Workflow, w': Workflow) {
    w'.fields == w.fields && w'.onSubmit == w.onSubmit && w'.initial == Swap(a, b, w.initial) &&
    |w'.TransitionList()| == |w.TransitionList()| &&
    forall i :: 0 <= i < |w.TransitionList()| ==> Alike(a, b, w.TransitionList()[i], w'.TransitionList()[i])
  }

  predicate Alike(a: string, b: string, t: D.Transition, t': D.Transition) {
    t'.key == t.key && t'.guard == t.guard && t'.actions == t.actions &&
    t'.Sources() == SwapAll(a, b, t.Sources()) && t'.to == Swap(a, b, t.to)
  }

  lemma EditedRenames(fm: Formats, w: Workflow, index: nat, key: string)
    requires ValidWorkflow(fm, w) && index < |w.StateList()| && key !in StateKeys(w.StateList())
    ensures Renames(w.StateList()[index].key, key, w, Edited(w, index, key))
  {
    hide ValidWorkflow, StateKeys, R.StateRenamed, R.Normalized, Swap;
    RenameIsSwap(fm, w, index, key);
    R.NormalizedKeepsMeaning(w);
    var was, n, w' := w.StateList()[index].key, R.Normalized(w), Edited(w, index, key);
    forall i | 0 <= i < |w.TransitionList()| ensures Alike(was, key, w.TransitionList()[i], w'.TransitionList()[i]) {
      assert w'.TransitionList()[i] == SwapTransition(was, key, n.TransitionList()[i]);
      assert n.TransitionList()[i].Sources() == w.TransitionList()[i].Sources();
    }
  }


  // ---- one decision -----------------------------------------------------------------------------------------

  lemma {:induction false} AlikeAreFound(a: string, b: string, ts: seq<D.Transition>, ts': seq<D.Transition>,
          key: string)
    requires |ts'| == |ts| && forall i :: 0 <= i < |ts| ==> Alike(a, b, ts[i], ts'[i])
    ensures FirstTransition(ts, key).Some? <==> FirstTransition(ts', key).Some?
    ensures FirstTransition(ts, key).Some? ==>
              Alike(a, b, FirstTransition(ts, key).value, FirstTransition(ts', key).value)
  {
    hide Swap, SwapAll;
    if ts != [] {
      assert Alike(a, b, ts[0], ts'[0]);
      AlikeAreFound(a, b, ts[1..], ts'[1..], key);
    }
  }

  lemma SameFieldsSamePatch(fm: Formats, w: Workflow, w': Workflow, fields: Fields, patch: Fields)
    requires w.fields == w'.fields
    ensures IssuesOf(fm, w, patch) == IssuesOf(fm, w', patch)
    ensures Merged(fm, w, fields, patch) == Merged(fm, w', fields, patch)
    ensures Changed(fm, w, fields, patch) == Changed(fm, w', fields, patch)
  {
    hide CheckEntry;
    forall k | k in patch { SameEntry(fm, w, w', k, patch[k]); }
    assert forall k :: After(fm, w, fields, patch, k) == After(fm, w', fields, patch, k);
  }

  lemma SameEntry(fm: Formats, w: Workflow, w': Workflow, k: string, v: Json)
    requires w.fields == w'.fields
    ensures CheckEntry(fm, w, k, v) == CheckEntry(fm, w', k, v)
  {
  }

  function SwapMove(a: string, b: string, r: Result<Move, Error>): Result<Move, Error> {
    match r
    case Ok(m) => Ok(m.(to := Swap(a, b, m.to)))
    case Err(e) => Err(e)
  }

  lemma SwapInSources(a: string, b: string, keys: seq<string>, state: string)
    ensures Swap(a, b, state) in SwapAll(a, b, keys) <==> state in keys
  {
    if state in keys {
      var i :| 0 <= i < |keys| && keys[i] == state;
      assert SwapAll(a, b, keys)[i] == Swap(a, b, state);
    }
    if Swap(a, b, state) in SwapAll(a, b, keys) {
      var i :| 0 <= i < |keys| && SwapAll(a, b, keys)[i] == Swap(a, b, state);
      assert keys[i] == state;
    }
  }

  /** The renamed workflow decides alike: the same refusals, fields and actions, and the renamed target. */
  lemma DecideCommutes(fm: Formats, w: Workflow, w': Workflow, a: string, b: string, state: string, fields: Fields,
                       p: Principal, input: Input)
    requires a != "" && b != "" && Renames(a, b, w, w')
    ensures Decide(fm, w', Swap(a, b, state), fields, p, input.(expectedState := Swap(a, b, input.expectedState))) ==
            SwapMove(a, b, Decide(fm, w, state, fields, p, input))
  {
    hide IssuesOf, Merged, Changed, Missing, HasAnyRole, Swap, SwapAll, FirstTransition;
    SameFieldsSamePatch(fm, w, w', fields, input.patch);
    AlikeAreFound(a, b, w.TransitionList(), w'.TransitionList(), input.transition);
    SwapsApart(a, b, state, input.expectedState);
    if w.FindTransition(input.transition).Some? {
      SwapInSources(a, b, w.FindTransition(input.transition).value.Sources(), state);
    }
  }

  lemma SwapsApart(a: string, b: string, k: string, j: string)
    requires a != "" && b != ""
    ensures (Swap(a, b, k) == Swap(a, b, j) <==> k == j) && (Swap(a, b, j) == "" <==> j == "")
  {
  }

  // ---- whole runs -------------------------------------------------------------------------------------------

  predicate PinnedTo(s: System, id: nat, v: nat) {
    id < |s.subs| && s.subs[id].workflow == Some(v)
  }

  function RenSub(v: nat, a: string, b: string, sub: Submission): Submission {
    if sub.workflow == Some(v) then sub.(state := Swap(a, b, sub.state)) else sub
  }

  function RenEvent(v: nat, a: string, b: string, s: System, e: Event): Event {
    if PinnedTo(s, e.submission, v) then e.(from := Swap(a, b, e.from), to := Swap(a, b, e.to)) else e
  }

  function RenEvents(v: nat, a: string, b: string, s: System, events: seq<Event>): seq<Event> {
    seq(|events|, i requires 0 <= i < |events| => RenEvent(v, a, b, s, events[i]))
  }

  function RenSubs(v: nat, a: string, b: string, subs: seq<Submission>): seq<Submission> {
    seq(|subs|, i requires 0 <= i < |subs| => RenSub(v, a, b, subs[i]))
  }

  /** The tables as they would be had workflow version v been saved as w', which exchanges two state keys. The
      jobs are the same. */
  function Ren(v: nat, a: string, b: string, w': Workflow, s: System): System
    requires v < |s.workflows|
  {
    System(s.workflows[v := w'], RenSubs(v, a, b, s.subs), RenEvents(v, a, b, s, s.events), s.jobs)
  }

  /** A caller that expects a state expects the renamed one. */
  function RenOp(v: nat, a: string, b: string, s: System, op: Op): Op {
    if op.Transition? && PinnedTo(s, op.id, v) then
      op.(input := op.input.(expectedState := Swap(a, b, op.input.expectedState)))
    else op
  }

  /** w' is version v with the two keys exchanged. */
  ghost predicate Exchanges(v: nat, a: string, b: string, w': Workflow, s: System) {
    v < |s.workflows| && a != "" && b != "" && Renames(a, b, s.workflows[v], w')
  }

  ghost predicate LogInRange(s: System) {
    forall k :: 0 <= k < |s.events| ==> s.events[k].submission < |s.subs|
  }

  /** Rewriting one row (not its pin) and appending one event about it. */
  lemma RenRowStep(v: nat, a: string, b: string, w': Workflow, s: System, id: nat, sub: Submission, e: Event,
          jobs: seq<Job>)
    requires v < |s.workflows| && id < |s.subs| && sub.workflow == s.subs[id].workflow && e.submission == id
    ensures var s' := Enqueue(Append(s.(subs := s.subs[id := sub]), e), jobs);
            var r := Ren(v, a, b, w', s);
            Ren(v, a, b, w', s') ==
              Enqueue(Append(r.(subs := r.subs[id := RenSub(v, a, b, sub)]), RenEvent(v, a, b, s, e)), jobs)
  {
    hide Swap, SwapWorkflow;
    var s' := Enqueue(Append(s.(subs := s.subs[id := sub]), e), jobs);
    var r := Ren(v, a, b, w', s);
    assert RenSubs(v, a, b, s'.subs) == r.subs[id := RenSub(v, a, b, sub)];
    assert RenEvents(v, a, b, s', s'.events) == r.events + [RenEvent(v, a, b, s, e)];
  }

  lemma WorkflowForRenamed(v: nat, a: string, b: string, w': Workflow, s: System, id: nat)
    requires v < |s.workflows|
    ensures WorkflowFor(Ren(v, a, b, w', s), id) ==
            match WorkflowFor(s, id)
            case Ok(w) => Ok(if PinnedTo(s, id, v) then w' else w)
            case Err(e) => Err(e)
  {
    hide SwapWorkflow;
  }

  lemma TransitionCommutes(fm: Formats, v: nat, a: string, b: string, w': Workflow, s: System, id: nat, p: Principal,
          input: Input)
    requires Exchanges(v, a, b, w', s)
    ensures var input' := RenOp(v, a, b, s, Op.Transition(id, p, input)).input;
            var (t, r) := DoTransition(fm, s, id, p, input);
            var (t', r') := DoTransition(fm, Ren(v, a, b, w', s), id, p, input');
            v < |t.workflows| && t' == Ren(v, a, b, w', t) && r' == r
  {
    hide Decide, SwapWorkflow, Swap, RenSubs, RenEvents;
    WorkflowForRenamed(v, a, b, w', s, id);
    if WorkflowFor(s, id).Ok? {
      var w := WorkflowFor(s, id).value;
      var sub := s.subs[id];
      RenSubAt(v, a, b, w', s, id);
      if PinnedTo(s, id, v) { DecideCommutes(fm, w, w', a, b, sub.state, sub.fields, p, input); }
      var d := Decide(fm, w, sub.state, sub.fields, p, input);
      if d.Ok? {
        var m := d.value;
        var e := Event(id, Transitioned, sub.state, m.to, input.transition, ActorOf(Some(p)), m.changed,
                       Words(Trim(fm.space, input.comment)));
        RenRowStep(v, a, b, w', s, id, sub.(state := m.to, fields := m.fields), e,
                   JobsFor(id, input.transition, |s.events| + 1, m.actions));
        RenLength(v, a, b, w', s);
      }
    }
  }

  lemma RenSubAt(v: nat, a: string, b: string, w': Workflow, s: System, id: nat)
    requires v < |s.workflows| && id < |s.subs|
    ensures id < |Ren(v, a, b, w', s).subs| && Ren(v, a, b, w', s).subs[id] == RenSub(v, a, b, s.subs[id])
  {
  }

  lemma RenLength(v: nat, a: string, b: string, w': Workflow, s: System)
    requires v < |s.workflows|
    ensures |Ren(v, a, b, w', s).events| == |s.events| && |Ren(v, a, b, w', s).subs| == |s.subs| &&
            Ren(v, a, b, w', s).jobs == s.jobs
    ensures |Ren(v, a, b, w', s).workflows| == |s.workflows|
  {
  }

  lemma UpdateCommutes(fm: Formats, v: nat, a: string, b: string, w': Workflow, s: System, id: nat, p: Principal,
          patch: Fields)
    requires Exchanges(v, a, b, w', s)
    ensures var (t, r), (t', r') := DoUpdate(fm, s, id, p, patch), DoUpdate(fm, Ren(v, a, b, w', s), id, p, patch);
            v < |t.workflows| && t' == Ren(v, a, b, w', t) && r' == r
  {
    hide IssuesOf, Merged, Changed, Swap, RenSubs, RenEvents;
    WorkflowForRenamed(v, a, b, w', s, id);
    if WorkflowFor(s, id).Ok? {
      var w := WorkflowFor(s, id).value;
      var sub := s.subs[id];
      RenSubAt(v, a, b, w', s, id);
      if PinnedTo(s, id, v) { SameFieldsSamePatch(fm, w, w', sub.fields, patch); }
      var e := Event(id, FieldsUpdated, "", "", "", ActorOf(Some(p)), Changed(fm, w, sub.fields, patch), Nothing);
      RenRowStep(v, a, b, w', s, id, sub.(fields := Merged(fm, w, sub.fields, patch)), e, []);
      EmptyStays(a, b);
      RenLength(v, a, b, w', s);
      NoJobs(Append(s.(subs := s.subs[id := sub.(fields := Merged(fm, w, sub.fields, patch))]), e));
    }
  }

  lemma EmptyStays(a: string, b: string)
    requires a != "" && b != ""
    ensures Swap(a, b, "") == ""
  {
  }

  lemma NoJobs(s: System)
    ensures Enqueue(s, []) == s
  {
  }

  /** Comments, assignments and records. */
  lemma NoteCommutes(v: nat, a: string, b: string, w': Workflow, s: System, id: nat, kind: EventKind,
          assignee: Option<nat>, actor: Actor, detail: Detail)
    requires v < |s.workflows| && a != "" && b != "" && id < |s.subs|
    ensures var r := Ren(v, a, b, w', s);
            id < |r.subs| &&
            Ren(v, a, b, w',
                Append(s.(subs := s.subs[id := s.subs[id].(assignee := assignee)]), Note(id, kind, actor, detail))) ==
            Append(r.(subs := r.subs[id := r.subs[id].(assignee := assignee)]), Note(id, kind, actor, detail))
  {
    hide Swap, RenSubs, RenEvents, SwapWorkflow;
    var sub := s.subs[id].(assignee := assignee);
    RenSubAt(v, a, b, w', s, id);
    RenRowStep(v, a, b, w', s, id, sub, Note(id, kind, actor, detail), []);
    EmptyStays(a, b);
    NoJobs(Append(s.(subs := s.subs[id := sub]), Note(id, kind, actor, detail)));
    var r := Ren(v, a, b, w', s);
    NoJobs(Append(r.(subs := r.subs[id := RenSub(v, a, b, sub)]), Note(id, kind, actor, detail)));
  }

  lemma PlainNoteCommutes(v: nat, a: string, b: string, w': Workflow, s: System, id: nat, kind: EventKind, actor: Actor,
          detail: Detail)
    requires v < |s.workflows| && a != "" && b != "" && id < |s.subs|
    ensures Ren(v, a, b, w', Append(s, Note(id, kind, actor, detail))) ==
            Append(Ren(v, a, b, w', s), Note(id, kind, actor, detail))
  {
    hide Swap, RenSubs, RenEvents, SwapWorkflow;
    NoteCommutes(v, a, b, w', s, id, kind, s.subs[id].assignee, actor, detail);
    var r := Ren(v, a, b, w', s);
    RenSubAt(v, a, b, w', s, id);
    assert s.subs[id := s.subs[id].(assignee := s.subs[id].assignee)] == s.subs;
    assert r.subs[id := r.subs[id].(assignee := s.subs[id].assignee)] == r.subs;
  }

  lemma {:induction false} FirstCreatedIgnoresStates(v: nat, a: string, b: string, s: System, events: seq<Event>,
        id: nat)
    ensures FirstCreated(RenEvents(v, a, b, s, events), id) == FirstCreated(events, id)
  {
    hide Swap;
    if events != [] {
      var r := RenEvents(v, a, b, s, events);
      assert r[..|r| - 1] == RenEvents(v, a, b, s, events[..|events| - 1]);
      FirstCreatedIgnoresStates(v, a, b, s, events[..|events| - 1], id);
    }
  }

  lemma CreateCommutes(fm: Formats, v: nat, a: string, b: string, w': Workflow, s: System, form: Form, pin: Option<nat>,
        data: map<string, Json>, requirePublic: bool, p: Option<Principal>)
    requires Exchanges(v, a, b, w', s) && LogInRange(s) && (pin.Some? ==> pin.value < |s.workflows|)
    ensures var (t, r) := DoCreate(fm, s, form, pin, data, requirePublic, p);
            var (t', r') := DoCreate(fm, Ren(v, a, b, w', s), form, pin, data, requirePublic, p);
            v < |t.workflows| && t' == Ren(v, a, b, w', t) && r' == r
  {
    hide Swap, S.Pass, FirstCreated, JobsFor;
    var r := Ren(v, a, b, w', s);
    RenLength(v, a, b, w', s);
    var actions := OnSubmit(s, pin);
    assert OnSubmit(r, pin) == actions;
    var clean := S.Pass(fm, data, form.FieldList());
    if !(requirePublic && !form.settings.isPublic) && clean.findings == [] && Known(actions) {
      NewRowCommutes(v, a, b, w', s, Submission(pin, InitialState(s, pin), clean.clean, map[], None), ActorOf(p));
    }
  }

  /** Adding a row in its initial state, with its event and its jobs. */
  lemma NewRowCommutes(v: nat, a: string, b: string, w': Workflow, s: System, sub: Submission, actor: Actor)
    requires Exchanges(v, a, b, w', s) && LogInRange(s) && (sub.workflow.Some? ==> sub.workflow.value < |s.workflows|)
    requires sub.state == InitialState(s, sub.workflow)
    ensures var r := Ren(v, a, b, w', s);
            InitialState(r, sub.workflow) == RenSub(v, a, b, sub).state &&
            Ren(v, a, b, w', NewRow(s, sub, actor)) == NewRow(r, RenSub(v, a, b, sub), actor)
  {
    hide Swap, FirstCreated, JobsFor;
    var r, id := Ren(v, a, b, w', s), |s.subs|;
    var e := Event(id, Created, "", sub.state, "", actor, map[], Nothing);
    var s1 := Append(s.(subs := s.subs + [sub]), e);
    EmptyStays(a, b);
    assert RenSubs(v, a, b, s1.subs) == r.subs + [RenSub(v, a, b, sub)];
    assert RenEvents(v, a, b, s1, s1.events) == r.events + [RenEvent(v, a, b, s1, e)];
    assert RenEvent(v, a, b, s1, e) == Event(id, Created, "", RenSub(v, a, b, sub).state, "", actor, map[], Nothing);
    FirstCreatedIgnoresStates(v, a, b, s1, s1.events, id);
  }

  function NewRow(s: System, sub: Submission, actor: Actor): System
    requires sub.workflow.Some? ==> sub.workflow.value < |s.workflows|
  {
    var id := |s.subs|;
    var s2 := Append(s.(subs := s.subs + [sub]), Event(id, Created, "", sub.state, "", actor, map[], Nothing));
    Enqueue(s2, JobsFor(id, SUBMIT, FirstCreated(s2.events, id), OnSubmit(s, sub.workflow)))
  }

  /** One step: the same outcome, and the renamed tables. */
  lemma StepCommutes(fm: Formats, v: nat, a: string, b: string, w': Workflow, s: System, op: Op)
    requires Exchanges(v, a, b, w', s) && LogInRange(s) && Possible(fm, s, op)
    ensures var op', r, t := RenOp(v, a, b, s, op), Ren(v, a, b, w', s), Next(fm, s, op);
            Possible(fm, r, op') && Exchanges(v, a, b, w', t) && LogInRange(t) &&
            Next(fm, r, op') == Ren(v, a, b, w', t) && Outcome(fm, r, op') == Outcome(fm, s, op)
  {
    hide ValidWorkflow, DoCreate, DoTransition, DoUpdate, Ren, Swap, Renames;
    RenLength(v, a, b, w', s);
    StepKeepsRange(fm, s, op);
    match op
    case AddVersion(w) => AddVersionCommutes(v, a, b, w', s, w);
    case Create(form, pin, data, requirePublic, p) =>
      CreateCommutes(fm, v, a, b, w', s, form, pin, data, requirePublic, p);
    case Transition(id, p, input) => TransitionCommutes(fm, v, a, b, w', s, id, p, input);
    case UpdateFields(id, p, patch) => UpdateCommutes(fm, v, a, b, w', s, id, p, patch);
    case Comment(id, p, body) =>
      if id < |s.subs| {
        PlainNoteCommutes(v, a, b, w', s, id, Commented, ActorOf(Some(p)), Words(Trim(fm.space, body)));
      }
    case Assign(id, p, user, name) =>
      if id < |s.subs| {
        NoteCommutes(v, a, b, w', s, id, Assigned, user, ActorOf(Some(p)), Assignment(user, name));
        RenSubAt(v, a, b, w', s, id);
      }
    case Record(id, kind, assignee, detail) =>
      if id < |s.subs| {
        if kind.Assigned? {
          NoteCommutes(v, a, b, w', s, id, kind, assignee, SystemActor, detail);
        } else {
          PlainNoteCommutes(v, a, b, w', s, id, kind, SystemActor, detail);
        }
      }
  }

  lemma AddVersionCommutes(v: nat, a: string, b: string, w': Workflow, s: System, w: Workflow)
    requires v < |s.workflows|
    ensures Ren(v, a, b, w', s.(workflows := s.workflows + [w])) ==
            Ren(v, a, b, w', s).(workflows := Ren(v, a, b, w', s).workflows + [w])
  {
    hide Swap, SwapWorkflow;
    var s' := s.(workflows := s.workflows + [w]);
    assert RenEvents(v, a, b, s', s'.events) == RenEvents(v, a, b, s, s.events);
  }

  lemma StepKeepsRange(fm: Formats, s: System, op: Op)
    requires LogInRange(s) && Possible(fm, s, op)
    ensures LogInRange(Next(fm, s, op)) && s.workflows <= Next(fm, s, op).workflows
  {
    hide ValidWorkflow, Decide, IssuesOf, Merged, Changed, S.Pass, FirstCreated, JobsFor;
  }

  /** The calls of the renamed run. */
  ghost function RenRun(fm: Formats, v: nat, a: string, b: string, s: System, ops: seq<Op>): (r: seq<Op>)
    requires PossibleRun(fm, s, ops)
    ensures |r| == |ops|
    decreases |ops|
  {
    if ops == [] then [] else [RenOp(v, a, b, s, ops[0])] + RenRun(fm, v, a, b, Next(fm, s, ops[0]), ops[1..])
  }

  ghost function Outcomes(fm: Formats, s: System, ops: seq<Op>): seq<Result<nat, Error>>
    requires PossibleRun(fm, s, ops)
    decreases |ops|
  {
    if ops == [] then [] else [Outcome(fm, s, ops[0])] + Outcomes(fm, Next(fm, s, ops[0]), ops[1..])
  }

  /** Bisimulation: every run over the old workflow is, call by call, a run over the renamed one with the same
      outcomes, fields, log (but for the two keys) and jobs. */
  lemma {:induction false} RenameIsBisimulation(fm: Formats, v: nat, a: string, b: string, w': Workflow, s: System,
          ops: seq<Op>)
    requires Exchanges(v, a, b, w', s) && LogInRange(s) && PossibleRun(fm, s, ops)
    ensures var ops', r, t := RenRun(fm, v, a, b, s, ops), Ren(v, a, b, w', s), Run(fm, s, ops);
            PossibleRun(fm, r, ops') && v < |t.workflows| &&
            Run(fm, r, ops') == Ren(v, a, b, w', t) && Outcomes(fm, r, ops') == Outcomes(fm, s, ops)
    decreases |ops|
  {
    hide Possible, Next, Ren, Outcome, RenOp, LogInRange;
    if ops != [] {
      StepCommutes(fm, v, a, b, w', s, ops[0]);
      var t := Next(fm, s, ops[0]);
      RenameIsBisimulation(fm, v, a, b, w', t, ops[1..]);
      var ops' := RenRun(fm, v, a, b, s, ops);
      assert ops'[1..] == RenRun(fm, v, a, b, t, ops[1..]);
    }
  }

  /** The same for the editor's rename of a state of a stored valid workflow to a key that no state has. */
  lemma EditorRenameIsBisimulation(fm: Formats, v: nat, index: nat, key: string, s: System, ops: seq<Op>)
    requires Inv(fm, s) && PossibleRun(fm, s, ops) && v < |s.workflows|
    requires index < |s.workflows[v].StateList()| && key != "" && key !in StateKeys(s.workflows[v].StateList())
    ensures var was, w' := s.workflows[v].StateList()[index].key, Edited(s.workflows[v], index, key);
            var ops', r, t := RenRun(fm, v, was, key, s, ops), Ren(v, was, key, w', s), Run(fm, s, ops);
            PossibleRun(fm, r, ops') && v < |t.workflows| &&
            Run(fm, r, ops') == Ren(v, was, key, w', t) && Outcomes(fm, r, ops') == Outcomes(fm, s, ops)
  {
    hide PossibleRun, Run, RenRun, Outcomes, ValidWorkflow, RowOk, Outbox, Edited, Allowed, Renames;
    assert ValidWorkflow(fm, s.workflows[v]);
    EditedRenames(fm, s.workflows[v], index, key);
    KeyAt(fm, s.workflows[v], index);
    forall k | 0 <= k < |s.events| ensures s.events[k].submission < |s.subs| {
      assert WalkAt(s.workflows, Pins(s.subs), s.events, k);
    }
    RenameIsBisimulation(fm, v, s.workflows[v].StateList()[index].key, key, Edited(s.workflows[v], index, key), s, ops);
  }
}
