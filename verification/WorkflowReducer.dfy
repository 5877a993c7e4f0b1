/** The workflow editor's reducer: no edit leaves a dangling reference or a selection out of range. */
module WorkflowReducer {
  import opened Common
  import opened Text
  import opened Definitions
  import opened DefinitionRules
  import opened Objects
  import opened Ordering

  datatype Selection = Whole | StateAt(index: nat) | TransitionAt(index: nat) | FieldAt(index: nat)

  datatype Target = OnSubmit | OnTransition(index: int)

  datatype Editor = Editor(def: Workflow, selection: Selection, dirty: bool)

  type KnownAction = k: ActionType | !k.UnknownAction? witness Webhook

  /** In a patch, None leaves an attribute alone. */
  datatype StatePatch = StatePatch(caption: Option<string>, color: Option<string>, terminal: Option<bool>)
  datatype TransitionPatch = TransitionPatch(key: Option<string>, caption: Option<string>, from: Option<seq<string>>,
                                             to: Option<string>)
  datatype FieldPatch = FieldPatch(caption: Option<string>, kind: Option<FieldType>, options: Option<seq<Choice>>)
  datatype ActionPatch = ActionPatch(
    kind: Option<KnownAction>, url: Option<string>, to: Option<string>, subject: Option<string>, body: Option<string>,
    user: Option<string>, role: Option<string>)

  datatype Edit =
    | SetMeta(slug: Option<string>, title: Option<string>)
    | SetInitial(key: string)
    | AddState
    | UpdateState(index: int, state: StatePatch)
    | RenameState(index: int, key: string)
    | RemoveState(index: int)
    | AddTransition
    | UpdateTransition(index: int, transition: TransitionPatch)
    | SetGuard(index: int, guard: Guard)
    | RemoveTransition(index: int)
    | AddField
    | UpdateField(index: int, field: FieldPatch)
    | RenameField(index: int, key: string)
    | RemoveField(index: int)
    | AddAction(target: Target, kind: KnownAction)
    | UpdateAction(target: Target, actionIndex: int, action: ActionPatch)
    | RemoveAction(target: Target, actionIndex: int)
    | Select(selection: Selection)
    | Replace(def: Workflow)
    | MarkSaved

  // ---- helpers ------------------------------------------------------------------------------------------

  const STARTER_OPTIONS := [Choice("option1", "Option 1"), Choice("option2", "Option 2")]

  function Or<T>(o: Option<T>, d: T): T {
    if o.Some? then o.value else d
  }

  function NewAction(kind: KnownAction): Action {
    if kind.Webhook? then Action(kind, "https://", "", "", "", "", "") else Action(kind, "", "", "", "", "", "")
  }

  /** First occurrences, in order. */
  function Unique(items: seq<string>): (r: seq<string>)
    ensures NoDuplicates(r) && forall x :: x in r <==> x in items
  {
    if items == [] then []
    else
      var front, last := items[..|items| - 1], items[|items| - 1];
      var r := Unique(front);
      if last in front then r else r + [last]
  }

  function Keep(items: seq<string>, keep: set<string>): (r: seq<string>)
    ensures forall x :: x in r <==> x in items && x in keep
    ensures |r| <= |items|
  {
    if items == [] then []
    else (if items[0] in keep then [items[0]] else []) + Keep(items[1..], keep)
  }

  function Drop(items: seq<string>, drop: set<string>): (r: seq<string>)
    ensures forall x :: x in r <==> x in items && x !in drop
  {
    if items == [] then []
    else (if items[0] in drop then [] else [items[0]]) + Drop(items[1..], drop)
  }

  function Replaced(items: seq<string>, was: string, renewed: string): (r: seq<string>)
    ensures |r| == |items| && forall i :: 0 <= i < |r| ==> r[i] == if items[i] == was then renewed else items[i]
  {
    seq(|items|, i requires 0 <= i < |items| => if items[i] == was then renewed else items[i])
  }

  function Trimmed(space: set<char>, items: seq<string>): seq<string> {
    seq(|items|, i requires 0 <= i < |items| => Trim(space, items[i]))
  }

  function Elements(items: seq<string>): (r: set<string>)
    ensures forall x :: x in r <==> x in items
  {
    set x | x in items
  }

  function KeyList(ss: seq<State>): (r: seq<string>)
    ensures Elements(r) == StateKeys(ss)
  {
    var r := seq(|ss|, i requires 0 <= i < |ss| => ss[i].key);
    assert forall i :: 0 <= i < |ss| ==> r[i] == ss[i].key;
    r
  }

  /** The given keys without repetition: declared states first, in the order of the states. */
  function OrderByStates(w: Workflow, from: seq<string>): (r: seq<string>)
    ensures Elements(r) == Elements(from) && NoDuplicates(r)
  {
    var wanted := Unique(from);
    var known := Keep(KeyList(w.StateList()), Elements(wanted));
    Unique(known + Drop(wanted, Elements(known)))
  }

  lemma {:induction false} RankIsFirst(xs: seq<string>, k: string)
    ensures k in xs <==> Rank(xs, k) < |xs|
    ensures k in xs ==> xs[Rank(xs, k)] == k
    ensures k !in xs ==> Rank(xs, k) == |xs|
  {
    if xs != [] { RankIsFirst(xs[1..], k); }
  }

  lemma {:induction false} RankOfConcat(a: seq<string>, b: seq<string>, k: string)
    ensures Rank(a + b, k) == if k in a then Rank(a, k) else |a| + Rank(b, k)
  {
    if a == [] {
      assert a + b == b;
    } else {
      assert (a + b)[1..] == a[1..] + b;
      RankOfConcat(a[1..], b, k);
    }
  }

  /** Unique keeps the order of first occurrences. */
  lemma {:induction false} UniqueByRank(xs: seq<string>, i: nat, j: nat)
    requires i < j < |Unique(xs)|
    ensures Rank(xs, Unique(xs)[i]) < Rank(xs, Unique(xs)[j])
  {
    var front, last := xs[..|xs| - 1], xs[|xs| - 1];
    var u := Unique(front);
    assert xs == front + [last];
    RankOfConcat(front, [last], Unique(xs)[i]);
    RankOfConcat(front, [last], Unique(xs)[j]);
    RankIsFirst(front, Unique(xs)[i]);
    assert Unique(xs)[i] == u[i] && u[i] in u;
    if j < |u| {
      assert Unique(xs)[j] == u[j] && u[j] in u;
      UniqueByRank(front, i, j);
    }
  }

  /** Keep preserves which of two keys occurs first. */
  lemma {:induction false} KeepByRank(xs: seq<string>, keep: set<string>, a: string, b: string)
    requires a in Keep(xs, keep) && b in Keep(xs, keep)
    ensures Rank(Keep(xs, keep), a) < Rank(Keep(xs, keep), b) <==> Rank(xs, a) < Rank(xs, b)
  {
    var rest := Keep(xs[1..], keep);
    if xs[0] !in keep {
      assert Keep(xs, keep) == [] + rest == rest;
      KeepByRank(xs[1..], keep, a, b);
    } else {
      assert Keep(xs, keep) == [xs[0]] + rest && Keep(xs, keep)[1..] == rest;
      if a != xs[0] && b != xs[0] { KeepByRank(xs[1..], keep, a, b); }
    }
  }

  /** The sources of a transition are the given keys without repetition: declared states first, in the order of the
      states, and then whatever is not declared. */
  lemma OrderFollowsStates(w: Workflow, from: seq<string>)
    ensures var r, keys := OrderByStates(w, from), KeyList(w.StateList());
            Elements(r) == Elements(from) && NoDuplicates(r) &&
            forall i, j :: 0 <= i < j < |r| ==> Rank(keys, r[i]) < Rank(keys, r[j]) || r[j] !in keys
  {
    hide Rank, Unique, Keep, Drop, KeyList;
    var keys, wanted := KeyList(w.StateList()), Unique(from);
    var known := Keep(keys, Elements(wanted));
    var rest := Drop(wanted, Elements(known));
    var r := OrderByStates(w, from);
    forall i, j | 0 <= i < j < |r| ensures Rank(keys, r[i]) < Rank(keys, r[j]) || r[j] !in keys {
      UniqueByRank(known + rest, i, j);
      RankOfConcat(known, rest, r[i]);
      RankOfConcat(known, rest, r[j]);
      RankIsFirst(known, r[j]);
      assert r[i] in known + rest && r[j] in known + rest by { assert r[i] in r && r[j] in r; }
      if r[i] in known && r[j] in known {
        KeepByRank(keys, Elements(wanted), r[i], r[j]);
      }
    }
  }

  /** The roles that are not blank, trimmed. */
  function TrimmedRoles(space: set<char>, roles: seq<string>): set<string> {
    set i | 0 <= i < |roles| && !Blank(space, roles[i]) :: Trim(space, roles[i])
  }

  lemma TrimmedRolesAre(space: set<char>, roles: seq<string>)
    ensures forall x :: x in TrimmedRoles(space, roles) <==> x in Trimmed(space, roles) && x != ""
  {
    hide Trim;
    var ts := Trimmed(space, roles);
    forall x ensures x in TrimmedRoles(space, roles) <==> x in ts && x != "" {
      if x in ts {
        var i :| 0 <= i < |ts| && ts[i] == x;
        assert Trim(space, roles[i]) == x;
      }
      if x in TrimmedRoles(space, roles) {
        var i :| 0 <= i < |roles| && !Blank(space, roles[i]) && Trim(space, roles[i]) == x;
        assert ts[i] == x;
      }
    }
  }

  /** The guard without repetitions and blank roles. */
  function NormalizeGuard(space: set<char>, g: Guard): (r: Guard)
    ensures Elements(r.requireFields) == Elements(g.requireFields) && NoDuplicates(r.requireFields)
    ensures NoDuplicates(r.roles) && Elements(r.roles) == TrimmedRoles(space, g.roles)
  {
    TrimmedRolesAre(space, g.roles);
    Guard(Unique(Drop(Trimmed(space, g.roles), {""})), Unique(g.requireFields))
  }

  lemma {:induction false} DropIsKeep(xs: seq<string>, drop: set<string>, keep: set<string>)
    requires forall x :: x in xs ==> (x in drop <==> x !in keep)
    ensures Drop(xs, drop) == Keep(xs, keep)
  {
    if xs != [] { DropIsKeep(xs[1..], drop, keep); }
  }

  /** Both lists of a guard keep the order of first occurrences. */
  lemma GuardKeepsOrder(space: set<char>, g: Guard)
    ensures var was, fields := g.requireFields, NormalizeGuard(space, g).requireFields;
            forall i, j :: 0 <= i < j < |fields| ==> Rank(was, fields[i]) < Rank(was, fields[j])
    ensures var was, roles := Trimmed(space, g.roles), NormalizeGuard(space, g).roles;
            forall i, j :: 0 <= i < j < |roles| ==> Rank(was, roles[i]) < Rank(was, roles[j])
  {
    hide Rank, Unique, Keep, Drop, Trimmed, TrimmedRoles;
    var fields := Unique(g.requireFields);
    forall i, j | 0 <= i < j < |fields| ensures Rank(g.requireFields, fields[i]) < Rank(g.requireFields, fields[j]) {
      UniqueByRank(g.requireFields, i, j);
    }
    var was := Trimmed(space, g.roles);
    var kept := Keep(was, Elements(was) - {""});
    DropIsKeep(was, {""}, Elements(was) - {""});
    var roles := Unique(kept);
    forall i, j | 0 <= i < j < |roles| ensures Rank(was, roles[i]) < Rank(was, roles[j]) {
      UniqueByRank(kept, i, j);
      KeepByRank(was, Elements(was) - {""}, roles[i], roles[j]);
    }
  }

  function CountStates(ss: seq<State>, key: string): (n: nat)
    ensures n == 0 <==> key !in StateKeys(ss)
  {
    if ss == [] then 0
    else
      assert StateKeys(ss) == {ss[0].key} + StateKeys(ss[1..]) by { StateKeysCons(ss); }
      (if ss[0].key == key then 1 else 0) + CountStates(ss[1..], key)
  }

  function CountFields(fs: seq<WorkflowField>, key: string): (n: nat)
    ensures n == 0 <==> key !in FieldKeys(fs)
  {
    if fs == [] then 0
    else
      assert FieldKeys(fs) == {fs[0].key} + FieldKeys(fs[1..]) by { FieldKeysCons(fs); }
      (if fs[0].key == key then 1 else 0) + CountFields(fs[1..], key)
  }

  lemma StateKeysCons(ss: seq<State>)
    requires ss != []
    ensures StateKeys(ss) == {ss[0].key} + StateKeys(ss[1..])
  {
    assert ss == [ss[0]] + ss[1..];
    forall k | k in StateKeys(ss) ensures k in {ss[0].key} + StateKeys(ss[1..]) {
      var i :| 0 <= i < |ss| && ss[i].key == k;
      if i > 0 { assert ss[1..][i - 1].key == k; }
    }
  }

  lemma FieldKeysCons(fs: seq<WorkflowField>)
    requires fs != []
    ensures FieldKeys(fs) == {fs[0].key} + FieldKeys(fs[1..])
  {
    forall k | k in FieldKeys(fs) ensures k in {fs[0].key} + FieldKeys(fs[1..]) {
      var i :| 0 <= i < |fs| && fs[i].key == k;
      if i > 0 { assert fs[1..][i - 1].key == k; }
    }
  }

  // ---- the edits -------------------------------------------------------------------------------------------

  /** The editor always works with present lists. */
  function Normalized(w: Workflow): Workflow {
    var ts := w.TransitionList();
    w.(states := Some(w.StateList()),
       transitions := Some(seq(|ts|, i requires 0 <= i < |ts| => ts[i].(from := Some(ts[i].Sources())))))
  }

  function Start(w: Workflow): Editor {
    Editor(Normalized(w), Whole, false)
  }

  predicate Selectable(w: Workflow, s: Selection) {
    match s
    case Whole => true
    case StateAt(i) => i < |w.StateList()|
    case TransitionAt(i) => i < |w.TransitionList()|
    case FieldAt(i) => i < |w.fields|
  }

  function ValidSelection(w: Workflow, s: Selection): Selection {
    if Selectable(w, s) then s else Whole
  }

  function Change(e: Editor, w: Workflow): Editor {
    e.(def := w, dirty := true)
  }

  function WithStates(w: Workflow, ss: seq<State>): Workflow {
    w.(states := Some(ss))
  }

  function WithTransitions(w: Workflow, ts: seq<Transition>): Workflow {
    w.(transitions := Some(ts))
  }

  function NewStateKey(w: Workflow): string {
    NextNumbered("state", StateKeys(w.StateList()))
  }

  function StateAdded(w: Workflow): Workflow {
    var s := State(NewStateKey(w), "New state", "gray", false);
    WithStates(w, w.StateList() + [s]).(initial := if w.initial in StateKeys(w.StateList()) then w.initial else s.key)
  }

  function StatePatched(s: State, p: StatePatch): State {
    s.(caption := Or(p.caption, s.caption), color := Or(p.color, s.color), terminal := Or(p.terminal, s.terminal))
  }

  function RedirectedOne(t: Transition, was: string, renewed: string): Transition {
    t.(from := Some(Replaced(t.Sources(), was, renewed)), to := if t.to == was then renewed else t.to)
  }

  function Redirected(ts: seq<Transition>, was: string, renewed: string): seq<Transition> {
    seq(|ts|, i requires 0 <= i < |ts| => RedirectedOne(ts[i], was, renewed))
  }

  /** References follow the key only when no other state has it. */
  function StateRenamed(w: Workflow, index: nat, key: string): Workflow
    requires index < |w.StateList()|
  {
    var ss := w.StateList();
    var was := ss[index].key;
    var w1 := WithStates(w, ss[index := ss[index].(key := key)]);
    if CountStates(ss, was) != 1 then w1
    else
      WithTransitions(w1, Redirected(w.TransitionList(), was, key))
      .(initial := if w.initial == was then key else w.initial)
  }

  function Detached(ts: seq<Transition>, gone: string): seq<Transition> {
    if ts == [] then []
    else
      var t := ts[0].(from := Some(Drop(ts[0].Sources(), {gone})));
      (if ts[0].to == gone || t.Sources() == [] then [] else [t]) + Detached(ts[1..], gone)
  }

  function StateRemoved(w: Workflow, index: nat): Workflow
    requires index < |w.StateList()|
  {
    var ss := Remove(w.StateList(), index);
    var gone := w.StateList()[index].key;
    var w1 := WithStates(w, ss);
    if CountStates(ss, gone) != 0 then w1
    else
      var initial := if w.initial != gone then w.initial else if ss == [] then "" else ss[0].key;
      WithTransitions(w1, Detached(w.TransitionList(), gone)).(initial := initial)
  }

  function TransitionKeys(ts: seq<Transition>): set<string> {
    set i | 0 <= i < |ts| :: ts[i].key
  }

  function FirstOther(ss: seq<State>, source: string): (r: string)
    ensures r == source || r in StateKeys(ss)
  {
    if ss == [] then source else if ss[0].key != source then ss[0].key
    else
      StateKeysCons(ss);
      FirstOther(ss[1..], source)
  }

  /** From the initial state, if it is declared, and otherwise from the first, to another one if there is one. */
  function NewTransition(w: Workflow): Transition {
    var ss := w.StateList();
    var source := if w.initial in StateKeys(ss) then w.initial else if ss == [] then "" else ss[0].key;
    Transition(NextNumbered("transition", TransitionKeys(w.TransitionList())), "New transition",
               Some(if source == "" then [] else [source]), FirstOther(ss, source), Guard([], []), [])
  }

  function TransitionPatched(w: Workflow, t: Transition, p: TransitionPatch): Transition {
    t.(key := Or(p.key, t.key), caption := Or(p.caption, t.caption), to := Or(p.to, t.to),
       from := if p.from.Some? then Some(OrderByStates(w, p.from.value)) else t.from)
  }

  function FieldAdded(w: Workflow): Workflow {
    var key := NextNumbered("field", FieldKeys(w.fields));
    w.(fields := w.fields + [WorkflowField(key, AnyFieldType.Text, "New field", [])])
  }

  function FieldPatched(f: WorkflowField, p: FieldPatch): WorkflowField {
    var g := f.(caption := Or(p.caption, f.caption), kind := Or(p.kind, f.kind), options := Or(p.options, f.options));
    g.(options := if !g.kind.Select? then [] else if g.options == [] then STARTER_OPTIONS else g.options)
  }

  function WithRequired(space: set<char>, t: Transition, keys: seq<string>): Transition {
    t.(guard := NormalizeGuard(space, t.guard.(requireFields := keys)))
  }

  function FieldRenamed(space: set<char>, w: Workflow, index: nat, key: string): Workflow
    requires index < |w.fields|
  {
    var was, ts := w.fields[index].key, w.TransitionList();
    var w1 := w.(fields := w.fields[index := w.fields[index].(key := key)]);
    if CountFields(w.fields, was) != 1 then w1
    else WithTransitions(w1, seq(|ts|, i requires 0 <= i < |ts| =>
      if was in ts[i].guard.requireFields then WithRequired(space, ts[i], Replaced(ts[i].guard.requireFields, was, key))
      else ts[i]))
  }

  function FieldRemoved(space: set<char>, w: Workflow, index: nat): Workflow
    requires index < |w.fields|
  {
    var gone, ts := w.fields[index].key, w.TransitionList();
    var w1 := w.(fields := Remove(w.fields, index));
    if CountFields(w1.fields, gone) != 0 then w1
    else WithTransitions(w1, seq(|ts|, i requires 0 <= i < |ts| =>
      if gone in ts[i].guard.requireFields then WithRequired(space, ts[i], Drop(ts[i].guard.requireFields, {gone}))
      else ts[i]))
  }

  predicate InRange<T>(items: seq<T>, i: int) {
    0 <= i < |items|
  }

  function Actions(w: Workflow, t: Target): seq<Action> {
    match t
    case OnSubmit => w.onSubmit
    case OnTransition(i) => if InRange(w.TransitionList(), i) then w.TransitionList()[i].actions else []
  }

  function WithActions(w: Workflow, t: Target, actions: seq<Action>): Workflow {
    match t
    case OnSubmit => w.(onSubmit := actions)
    case OnTransition(i) =>
      if InRange(w.TransitionList(), i) then
        WithTransitions(w, w.TransitionList()[i := w.TransitionList()[i].(actions := actions)])
      else w
  }

  function ActionPatched(a: Action, p: ActionPatch): Action {
    if p.kind.Some? && p.kind.value != a.kind then NewAction(p.kind.value)
    else a.(url := Or(p.url, a.url), to := Or(p.to, a.to), subject := Or(p.subject, a.subject),
            body := Or(p.body, a.body),
            user := Or(p.user, a.user), role := Or(p.role, a.role))
  }

  function Reduce(space: set<char>, e: Editor, edit: Edit): Editor {
    var w := e.def;
    var ss, ts := w.StateList(), w.TransitionList();
    match edit
    case SetMeta(slug, title) => Change(e, w.(slug := Or(slug, w.slug), title := Or(title, w.title)))
    case SetInitial(key) => Change(e, w.(initial := key))
    case AddState => Change(e, StateAdded(w)).(selection := StateAt(|ss|))
    case UpdateState(i, p) => if !InRange(ss, i) then e else Change(e, WithStates(w, ss[i := StatePatched(ss[i], p)]))
    case RenameState(i, key) => if !InRange(ss, i) then e else Change(e, StateRenamed(w, i, key))
    case RemoveState(i) => if !InRange(ss, i) then e else Change(e, StateRemoved(w, i)).(selection := Whole)
    case AddTransition => Change(e, WithTransitions(w, ts + [NewTransition(w)])).(selection := TransitionAt(|ts|))
    case UpdateTransition(i, p) =>
      if !InRange(ts, i) then e else Change(e, WithTransitions(w, ts[i := TransitionPatched(w, ts[i], p)]))
    case SetGuard(i, g) =>
      if !InRange(ts, i) then e else Change(e, WithTransitions(w, ts[i := ts[i].(guard := NormalizeGuard(space, g))]))
    case RemoveTransition(i) =>
      if !InRange(ts, i) then e else Change(e, WithTransitions(w, Remove(ts, i))).(selection := Whole)
    case AddField => Change(e, FieldAdded(w)).(selection := FieldAt(|w.fields|))
    case UpdateField(i, p) =>
      if !InRange(w.fields, i) then e else Change(e, w.(fields := w.fields[i := FieldPatched(w.fields[i], p)]))
    case RenameField(i, key) => if !InRange(w.fields, i) then e else Change(e, FieldRenamed(space, w, i, key))
    case RemoveField(i) =>
      if !InRange(w.fields, i) then e else Change(e, FieldRemoved(space, w, i)).(selection := Whole)
    case AddAction(t, kind) => Change(e, WithActions(w, t, Actions(w, t) + [NewAction(kind)]))
    case UpdateAction(t, i, p) =>
      var actions := Actions(w, t);
      if !InRange(actions, i) then e else Change(e, WithActions(w, t, actions[i := ActionPatched(actions[i], p)]))
    case RemoveAction(t, i) =>
      if !InRange(Actions(w, t), i) then e else Change(e, WithActions(w, t, Remove(Actions(w, t), i)))
    case Select(selection) => e.(selection := ValidSelection(w, selection))
    case Replace(def) => Editor(Normalized(def), ValidSelection(Normalized(def), e.selection), true)
    case MarkSaved => e.(dirty := false)
  }

  // ---- no dangling reference --------------------------------------------------------------------------------

  predicate Bound(w: Workflow, t: Transition) {
    t.from.Some? && Elements(t.Sources()) <= StateKeys(w.StateList()) && t.to in StateKeys(w.StateList()) &&
    Elements(t.guard.requireFields) <= FieldKeys(w.fields)
  }

  /** Every reference names something declared; without states there is no transition. */
  ghost predicate NoDangling(w: Workflow) {
    w.states.Some? && w.transitions.Some? &&
    (w.StateList() == [] || w.initial in StateKeys(w.StateList())) &&
    forall i :: 0 <= i < |w.TransitionList()| ==> Bound(w, w.TransitionList()[i])
  }

  ghost predicate Sound(e: Editor) {
    NoDangling(e.def) && Selectable(e.def, e.selection)
  }

  /** What the editor's forms offer: picked states and fields exist, a transition needs a state, and a loaded
      definition has no dangling reference itself. */
  ghost predicate Offered(e: Editor, edit: Edit) {
    var states, fields := StateKeys(e.def.StateList()), FieldKeys(e.def.fields);
    match edit
    case SetInitial(key) => key in states
    case AddTransition => e.def.StateList() != []
    case UpdateTransition(_, p) =>
      (p.from.Some? ==> Elements(p.from.value) <= states) && (p.to.Some? ==> p.to.value in states)
    case SetGuard(_, g) => Elements(g.requireFields) <= fields
    case Replace(def) => NoDangling(Normalized(def))
    case _ => true
  }

  /** The same references, over tables that have lost nothing. */
  lemma StillBound(w: Workflow, w': Workflow, t: Transition)
    requires Bound(w, t) && StateKeys(w.StateList()) <= StateKeys(w'.StateList()) &&
             FieldKeys(w.fields) <= FieldKeys(w'.fields)
    ensures Bound(w', t)
  {
  }

  /** Edits that keep the states, the fields and the transitions' references. */
  lemma SameTablesKeep(w: Workflow, w': Workflow)
    requires NoDangling(w) && w'.states.Some? && w'.transitions == w.transitions
    requires StateKeys(w.StateList()) <= StateKeys(w'.StateList()) && FieldKeys(w.fields) <= FieldKeys(w'.fields)
    requires w'.StateList() == [] || w'.initial in StateKeys(w'.StateList())
    ensures NoDangling(w')
  {
    hide Bound, StateKeys, FieldKeys;
    forall i | 0 <= i < |w'.TransitionList()| ensures Bound(w', w'.TransitionList()[i]) {
      StillBound(w, w', w.TransitionList()[i]);
    }
  }

  lemma KeysAfterUpdate(ss: seq<State>, i: nat, s: State)
    requires i < |ss| && s.key == ss[i].key
    ensures StateKeys(ss[i := s]) == StateKeys(ss)
  {
    assert forall j :: 0 <= j < |ss| ==> ss[i := s][j].key == ss[j].key;
  }

  lemma FieldKeysAfterUpdate(fs: seq<WorkflowField>, i: nat, f: WorkflowField)
    requires i < |fs| && f.key == fs[i].key
    ensures FieldKeys(fs[i := f]) == FieldKeys(fs)
  {
    assert forall j :: 0 <= j < |fs| ==> fs[i := f][j].key == fs[j].key;
  }

  lemma KeysAfterAppend(ss: seq<State>, s: State)
    ensures StateKeys(ss + [s]) == StateKeys(ss) + {s.key}
  {
    var more := ss + [s];
    assert forall j :: 0 <= j < |ss| ==> more[j] == ss[j];
    assert more[|ss|] == s;
  }

  lemma FieldKeysAfterAppend(fs: seq<WorkflowField>, f: WorkflowField)
    ensures FieldKeys(fs) <= FieldKeys(fs + [f])
  {
    assert forall j :: 0 <= j < |fs| ==> (fs + [f])[j] == fs[j];
  }

  /** Replacing the transitions by bound ones. */
  lemma TransitionsKeep(w: Workflow, ts: seq<Transition>)
    requires NoDangling(w) && forall i :: 0 <= i < |ts| ==> Bound(w, ts[i])
    ensures NoDangling(WithTransitions(w, ts))
  {
    hide StateKeys, FieldKeys;
    var w' := WithTransitions(w, ts);
    forall i | 0 <= i < |ts| ensures Bound(w', ts[i]) {
      StillBound(w, w', ts[i]);
    }
  }

  // ---- states -----------------------------------------------------------------------------------------------------

  lemma AddStateKeeps(w: Workflow)
    requires NoDangling(w)
    ensures NoDangling(StateAdded(w)) && |StateAdded(w).StateList()| == |w.StateList()| + 1
  {
    hide Bound, StateKeys, FieldKeys, NextNumbered;
    KeysAfterAppend(w.StateList(), State(NewStateKey(w), "New state", "gray", false));
    SameTablesKeep(w, StateAdded(w));
  }

  lemma {:induction false} CountsEach(ss: seq<State>, index: nat, key: string)
    requires index < |ss|
    ensures CountStates(ss, key) == CountStates(Remove(ss, index), key) + if ss[index].key == key then 1 else 0
  {
    var r := Remove(ss, index);
    if index == 0 {
      assert r == ss[1..];
    } else {
      assert r[0] == ss[0] && r[1..] == Remove(ss[1..], index - 1);
      CountsEach(ss[1..], index - 1, key);
    }
  }

  lemma KeysWithout(ss: seq<State>, index: nat)
    requires index < |ss|
    ensures StateKeys(ss) == StateKeys(Remove(ss, index)) + {ss[index].key}
  {
    var r := Remove(ss, index);
    forall k | k in StateKeys(ss) ensures k in StateKeys(r) + {ss[index].key} {
      var i :| 0 <= i < |ss| && ss[i].key == k;
      if i < index { assert r[i] == ss[i]; } else if i > index { assert r[i - 1] == ss[i]; }
    }
    assert forall i :: 0 <= i < |r| ==> r[i] == ss[if i < index then i else i + 1];
  }

  /** The keys after a rename: the old one stays only if another state has it. */
  lemma KeysAfterRename(ss: seq<State>, index: nat, key: string)
    requires index < |ss|
    ensures var r := StateKeys(ss[index := ss[index].(key := key)]);
            key in r && StateKeys(ss) - {ss[index].key} <= r &&
            (CountStates(ss, ss[index].key) != 1 ==> StateKeys(ss) <= r)
  {
    var was, renewed := ss[index].key, ss[index := ss[index].(key := key)];
    KeysWithout(ss, index);
    KeysWithout(renewed, index);
    assert Remove(renewed, index) == Remove(ss, index);
    CountsEach(ss, index, was);
  }

  lemma RedirectedIsBound(w: Workflow, w': Workflow, t: Transition, was: string, renewed: string)
    requires Bound(w, t) && w'.fields == w.fields
    requires renewed in StateKeys(w'.StateList()) && StateKeys(w.StateList()) - {was} <= StateKeys(w'.StateList())
    ensures Bound(w', RedirectedOne(t, was, renewed))
  {
    hide StateKeys, FieldKeys;
    var from := Replaced(t.Sources(), was, renewed);
    forall k | k in from ensures k in StateKeys(w'.StateList()) {
      var i :| 0 <= i < |from| && from[i] == k;
      assert t.Sources()[i] in Elements(t.Sources());
    }
  }

  lemma RenameStateKeeps(w: Workflow, index: nat, key: string)
    requires NoDangling(w) && index < |w.StateList()|
    ensures NoDangling(StateRenamed(w, index, key))
    ensures |StateRenamed(w, index, key).StateList()| == |w.StateList()| &&
            StateRenamed(w, index, key).fields == w.fields
    ensures |StateRenamed(w, index, key).TransitionList()| == |w.TransitionList()|
  {
    hide Bound, StateKeys, FieldKeys, CountStates, RedirectedOne;
    var ss, w' := w.StateList(), StateRenamed(w, index, key);
    KeysAfterRename(ss, index, key);
    if CountStates(ss, ss[index].key) != 1 {
      SameTablesKeep(w, w');
    } else {
      forall i | 0 <= i < |w.TransitionList()| ensures Bound(w', w'.TransitionList()[i]) {
        RedirectedIsBound(w, w', w.TransitionList()[i], ss[index].key, key);
      }
    }
  }

  lemma DetachedIsBound(w: Workflow, w': Workflow, t: Transition, gone: string)
    requires Bound(w, t) && t.to != gone && w'.fields == w.fields
    requires StateKeys(w'.StateList()) == StateKeys(w.StateList()) - {gone}
    ensures Bound(w', t.(from := Some(Drop(t.Sources(), {gone}))))
  {
    hide StateKeys, FieldKeys;
  }

  /** Only transitions that do not touch the removed state survive, and they no longer mention it. */
  lemma {:induction false} DetachedAreBound(w: Workflow, w': Workflow, ts: seq<Transition>, gone: string, i: nat)
    requires forall j :: 0 <= j < |ts| ==> Bound(w, ts[j])
    requires w'.fields == w.fields && StateKeys(w'.StateList()) == StateKeys(w.StateList()) - {gone}
    requires i < |Detached(ts, gone)|
    ensures Bound(w', Detached(ts, gone)[i]) && Detached(ts, gone)[i].Sources() != []
  {
    hide Bound, StateKeys, FieldKeys, Drop;
    var t := ts[0].(from := Some(Drop(ts[0].Sources(), {gone})));
    var keep := !(ts[0].to == gone || t.Sources() == []);
    if keep && i == 0 {
      DetachedIsBound(w, w', ts[0], gone);
    } else {
      DetachedAreBound(w, w', ts[1..], gone, if keep then i - 1 else i);
    }
  }

  lemma RemoveStateKeeps(w: Workflow, index: nat)
    requires NoDangling(w) && index < |w.StateList()|
    ensures NoDangling(StateRemoved(w, index))
  {
    hide Bound, StateKeys, FieldKeys, CountStates, Detached, Remove;
    var ss, w' := w.StateList(), StateRemoved(w, index);
    var rest, gone := Remove(ss, index), ss[index].key;
    KeysWithout(ss, index);
    if CountStates(rest, gone) != 0 {
      assert gone in StateKeys(rest);
      SameTablesKeep(w, w');
    } else {
      assert StateKeys(rest) == StateKeys(ss) - {gone};
      FirstIsDeclared(rest);
      forall i | 0 <= i < |w'.TransitionList()| ensures Bound(w', w'.TransitionList()[i]) {
        DetachedAreBound(w, w', w.TransitionList(), gone, i);
      }
    }
  }

  lemma FirstIsDeclared(ss: seq<State>)
    ensures ss != [] ==> ss[0].key in StateKeys(ss)
  {
  }

  // ---- transitions ---------------------------------------------------------------------------------------------

  lemma NewTransitionIsBound(w: Workflow)
    requires NoDangling(w) && w.StateList() != []
    ensures Bound(w, NewTransition(w))
  {
    hide StateKeys, FieldKeys, NextNumbered, FirstOther;
    FirstIsDeclared(w.StateList());
  }

  lemma UpdateTransitionKeeps(w: Workflow, i: nat, p: TransitionPatch)
    requires NoDangling(w) && i < |w.TransitionList()|
    requires (p.from.Some? ==> Elements(p.from.value) <= StateKeys(w.StateList())) &&
             (p.to.Some? ==> p.to.value in StateKeys(w.StateList()))
    ensures NoDangling(WithTransitions(w, w.TransitionList()[i := TransitionPatched(w, w.TransitionList()[i], p)]))
  {
    hide StateKeys, FieldKeys;
    assert Bound(w, w.TransitionList()[i]);
    TransitionsKeep(w, w.TransitionList()[i := TransitionPatched(w, w.TransitionList()[i], p)]);
  }

  lemma SetGuardKeeps(space: set<char>, w: Workflow, i: nat, g: Guard)
    requires NoDangling(w) && i < |w.TransitionList()| && Elements(g.requireFields) <= FieldKeys(w.fields)
    ensures var ts := w.TransitionList();
            NoDangling(WithTransitions(w, ts[i := ts[i].(guard := NormalizeGuard(space, g))]))
  {
    hide StateKeys, FieldKeys, NormalizeGuard;
    assert Bound(w, w.TransitionList()[i]);
    TransitionsKeep(w, w.TransitionList()[i := w.TransitionList()[i].(guard := NormalizeGuard(space, g))]);
  }

  lemma RemoveTransitionKeeps(w: Workflow, i: nat)
    requires NoDangling(w) && i < |w.TransitionList()|
    ensures NoDangling(WithTransitions(w, Remove(w.TransitionList(), i)))
  {
    hide Bound;
    var ts := w.TransitionList();
    var r := Remove(ts, i);
    forall j | 0 <= j < |r| ensures Bound(w, r[j]) {
      assert r[j] == ts[if j < i then j else j + 1];
    }
    TransitionsKeep(w, r);
  }

  // ---- fields -----------------------------------------------------------------------------------------------------

  lemma {:induction false} CountsEachField(fs: seq<WorkflowField>, index: nat, key: string)
    requires index < |fs|
    ensures CountFields(fs, key) == CountFields(Remove(fs, index), key) + if fs[index].key == key then 1 else 0
  {
    var r := Remove(fs, index);
    if index == 0 {
      assert r == fs[1..];
    } else {
      assert r[0] == fs[0] && r[1..] == Remove(fs[1..], index - 1);
      CountsEachField(fs[1..], index - 1, key);
    }
  }

  lemma FieldKeysWithout(fs: seq<WorkflowField>, index: nat)
    requires index < |fs|
    ensures FieldKeys(fs) == FieldKeys(Remove(fs, index)) + {fs[index].key}
  {
    var r := Remove(fs, index);
    forall k | k in FieldKeys(fs) ensures k in FieldKeys(r) + {fs[index].key} {
      var i :| 0 <= i < |fs| && fs[i].key == k;
      if i < index { assert r[i] == fs[i]; } else if i > index { assert r[i - 1] == fs[i]; }
    }
    assert forall i :: 0 <= i < |r| ==> r[i] == fs[if i < index then i else i + 1];
  }

  lemma FieldKeysAfterRename(fs: seq<WorkflowField>, index: nat, key: string)
    requires index < |fs|
    ensures var r := FieldKeys(fs[index := fs[index].(key := key)]);
            key in r && FieldKeys(fs) - {fs[index].key} <= r &&
            (CountFields(fs, fs[index].key) != 1 ==> FieldKeys(fs) <= r)
  {
    var was, renewed := fs[index].key, fs[index := fs[index].(key := key)];
    FieldKeysWithout(fs, index);
    FieldKeysWithout(renewed, index);
    assert Remove(renewed, index) == Remove(fs, index);
    CountsEachField(fs, index, was);
  }

  lemma RequiredIsBound(space: set<char>, w: Workflow, w': Workflow, t: Transition, keys: seq<string>)
    requires Bound(w, t) && w'.StateList() == w.StateList() && Elements(keys) <= FieldKeys(w'.fields)
    ensures Bound(w', WithRequired(space, t, keys))
  {
    hide StateKeys, FieldKeys, NormalizeGuard;
  }

  lemma RenameFieldKeeps(space: set<char>, w: Workflow, index: nat, key: string)
    requires NoDangling(w) && index < |w.fields|
    ensures NoDangling(FieldRenamed(space, w, index, key))
  {
    hide Bound, StateKeys, FieldKeys, CountFields, WithRequired, Replaced;
    var was, w', ts := w.fields[index].key, FieldRenamed(space, w, index, key), w.TransitionList();
    FieldKeysAfterRename(w.fields, index, key);
    if CountFields(w.fields, was) != 1 {
      SameTablesKeep(w, w');
    } else {
      forall i | 0 <= i < |ts| ensures Bound(w', w'.TransitionList()[i]) {
        var req := ts[i].guard.requireFields;
        assert Bound(w, ts[i]);
        if was in req {
          RenamedKeysDeclared(w, w', ts[i], was, key);
          RequiredIsBound(space, w, w', ts[i], Replaced(req, was, key));
        } else {
          Unaffected(w, w', ts[i], was);
        }
      }
    }
  }

  lemma RenamedKeysDeclared(w: Workflow, w': Workflow, t: Transition, was: string, key: string)
    requires Bound(w, t) && key in FieldKeys(w'.fields) && FieldKeys(w.fields) - {was} <= FieldKeys(w'.fields)
    ensures Elements(Replaced(t.guard.requireFields, was, key)) <= FieldKeys(w'.fields)
  {
    hide StateKeys, FieldKeys;
    var req, r := t.guard.requireFields, Replaced(t.guard.requireFields, was, key);
    forall k | k in r ensures k in FieldKeys(w'.fields) {
      var i :| 0 <= i < |r| && r[i] == k;
      assert req[i] in Elements(req);
    }
  }

  /** A transition that does not require the field keeps its bindings without it. */
  lemma Unaffected(w: Workflow, w': Workflow, t: Transition, was: string)
    requires Bound(w, t) && was !in t.guard.requireFields && w'.StateList() == w.StateList()
    requires FieldKeys(w.fields) - {was} <= FieldKeys(w'.fields)
    ensures Bound(w', t)
  {
    hide StateKeys, FieldKeys;
  }

  lemma RemoveFieldKeeps(space: set<char>, w: Workflow, index: nat)
    requires NoDangling(w) && index < |w.fields|
    ensures NoDangling(FieldRemoved(space, w, index))
  {
    hide Bound, StateKeys, FieldKeys, CountFields, WithRequired, Drop, Remove;
    var gone, w', ts := w.fields[index].key, FieldRemoved(space, w, index), w.TransitionList();
    FieldKeysWithout(w.fields, index);
    if CountFields(w'.fields, gone) != 0 {
      assert gone in FieldKeys(w'.fields);
      SameTablesKeep(w, w');
    } else {
      forall i | 0 <= i < |ts| ensures Bound(w', w'.TransitionList()[i]) {
        var req := ts[i].guard.requireFields;
        assert Bound(w, ts[i]);
        if gone in req {
          RemainingKeysDeclared(w, w', ts[i], gone);
          RequiredIsBound(space, w, w', ts[i], Drop(req, {gone}));
        } else {
          Unaffected(w, w', ts[i], gone);
        }
      }
    }
  }

  lemma RemainingKeysDeclared(w: Workflow, w': Workflow, t: Transition, gone: string)
    requires Bound(w, t) && FieldKeys(w.fields) - {gone} <= FieldKeys(w'.fields)
    ensures Elements(Drop(t.guard.requireFields, {gone})) <= FieldKeys(w'.fields)
  {
    hide StateKeys, FieldKeys;
  }

  // ---- what an edit leaves alone ------------------------------------------------------------------------------

  /** Removing a state drops only the transitions into it and those that left nothing else, and only its key from
      the others. */
  lemma {:induction false} DetachedLosesNoMore(ts: seq<Transition>, gone: string, t: Transition)
    requires t in ts && t.to != gone && exists k :: k in t.Sources() && k != gone
    ensures t.(from := Some(Drop(t.Sources(), {gone}))) in Detached(ts, gone)
  {
    hide Drop;
    if t == ts[0] {
      var k :| k in t.Sources() && k != gone;
      assert k in Drop(t.Sources(), {gone});
      assert t.(from := Some(Drop(t.Sources(), {gone}))) == Detached(ts, gone)[0];
    } else {
      DetachedLosesNoMore(ts[1..], gone, t);
    }
  }

  lemma RemoveStateLosesNoMore(w: Workflow, index: nat, t: Transition)
    requires index < |w.StateList()| && t in w.TransitionList()
    requires t.to != w.StateList()[index].key && exists k :: k in t.Sources() && k != w.StateList()[index].key
    ensures var gone, w' := w.StateList()[index].key, StateRemoved(w, index);
            t in w'.TransitionList() || t.(from := Some(Drop(t.Sources(), {gone}))) in w'.TransitionList()
    ensures StateRemoved(w, index).StateList() == Remove(w.StateList(), index) &&
            StateRemoved(w, index).fields == w.fields
  {
    hide Drop, Detached, CountStates;
    DetachedLosesNoMore(w.TransitionList(), w.StateList()[index].key, t);
  }

  lemma {:induction false} DetachedOfUnused(ts: seq<Transition>, gone: string)
    requires forall i :: 0 <= i < |ts| ==> ts[i].from.Some? && gone !in ts[i].Sources() && ts[i].to != gone
    ensures |Detached(ts, gone)| <= |ts|
    ensures Detached(ts, gone) == ts <==> forall i :: 0 <= i < |ts| ==> ts[i].Sources() != []
  {
    hide Drop;
    if ts != [] {
      var rest := Detached(ts[1..], gone);
      DetachedOfUnused(ts[1..], gone);
      DropNothing(ts[0].Sources(), gone);
      assert ts[0].(from := Some(ts[0].Sources())) == ts[0];
      if ts[0].Sources() == [] {
        assert Detached(ts, gone) == [] + rest == rest;
      } else {
        assert Detached(ts, gone) == [ts[0]] + rest;
        SameTails(ts, rest);
      }
    }
  }

  lemma SameTails(ts: seq<Transition>, rest: seq<Transition>)
    requires ts != []
    ensures [ts[0]] + rest == ts <==> rest == ts[1..]
  {
    assert ts == [ts[0]] + ts[1..];
    assert ([ts[0]] + rest)[1..] == rest;
  }

  lemma {:induction false} DropNothing(items: seq<string>, gone: string)
    requires gone !in items
    ensures Drop(items, {gone}) == items
  {
    if items != [] {
      DropNothing(items[1..], gone);
      assert items == [items[0]] + items[1..];
    }
  }

  /** Removing the state that was just added restores the definition exactly if every transition has a source and, where
      there was no state, no initial one was named. */
  lemma AddThenRemoveState(space: set<char>, e: Editor)
    requires Sound(e)
    ensures var e' := Reduce(space, Reduce(space, e, AddState), RemoveState(|e.def.StateList()|));
            e'.def == e.def <==>
              (e.def.StateList() == [] ==> e.def.initial == "") &&
              forall i :: 0 <= i < |e.def.TransitionList()| ==> e.def.TransitionList()[i].Sources() != []
  {
    hide StateKeys, FieldKeys, NextNumbered, Detached, CountStates, Elements;
    var w, ss, ts := e.def, e.def.StateList(), e.def.TransitionList();
    var added := State(NewStateKey(w), "New state", "gray", false);
    var w1 := StateAdded(w);
    assert w1.StateList() == ss + [added] && Remove(w1.StateList(), |ss|) == ss;
    FreshStateKey(w);
    forall i | 0 <= i < |ts| ensures ts[i].from.Some? && added.key !in ts[i].Sources() && ts[i].to != added.key {
      assert Bound(w, ts[i]);
      assert added.key !in Elements(ts[i].Sources());
    }
    DetachedOfUnused(ts, added.key);
    NoStateKeys(w);
  }

  lemma NoStateKeys(w: Workflow)
    ensures w.StateList() == [] ==> StateKeys(w.StateList()) == {}
  {
  }

  /** A definition without dangling reference that this changes: its one transition has no source and is lost. */
  lemma SourcelessTransitionIsLost(space: set<char>) returns (e: Editor)
    ensures Sound(e) && |e.def.TransitionList()| == 1
    ensures Reduce(space, Reduce(space, e, AddState), RemoveState(|e.def.StateList()|)).def != e.def
  {
    var t := Transition("t", "T", Some([]), "a", Guard([], []), []);
    e := Editor(Workflow("w", "W", "a", Some([State("a", "A", "", false)]), [], [], Some([t])), Whole, false);
    assert e.def.StateList()[0].key == "a";
    assert e.def.TransitionList()[0].Sources() == [];
    AddThenRemoveState(space, e);
  }

  lemma FreshStateKey(w: Workflow)
    ensures NewStateKey(w) !in StateKeys(w.StateList()) && CountStates(w.StateList(), NewStateKey(w)) == 0
  {
    hide StateKeys;
  }

  /** Removing the field or the transition that was just added restores the definition. */
  lemma AddThenRemove(space: set<char>, e: Editor)
    requires Sound(e)
    ensures Reduce(space, Reduce(space, e, AddField), RemoveField(|e.def.fields|)).def == e.def
    ensures Reduce(space, Reduce(space, e, AddTransition), RemoveTransition(|e.def.TransitionList()|)).def == e.def
  {
    hide StateKeys, FieldKeys, NextNumbered, WithRequired, Elements, NewTransition, CountFields, FieldAdded,
         FieldRemoved;
    var ts := e.def.TransitionList();
    var t := NewTransition(e.def);
    assert Remove(ts + [t], |ts|) == ts;
    FieldAddedIsRemoved(space, e);
  }

  lemma FieldAddedIsRemoved(space: set<char>, e: Editor)
    requires Sound(e)
    ensures FieldRemoved(space, FieldAdded(e.def), |e.def.fields|) == e.def
    ensures InRange(FieldAdded(e.def).fields, |e.def.fields|)
  {
    hide StateKeys, FieldKeys, NextNumbered, WithRequired, Elements, CountFields;
    var w, ts := e.def, e.def.TransitionList();
    var w1 := FieldAdded(w);
    var key := w1.fields[|w.fields|].key;
    assert Remove(w1.fields, |w.fields|) == w.fields;
    FreshFieldKey(w);
    forall i | 0 <= i < |ts| ensures key !in ts[i].guard.requireFields {
      assert Bound(w, ts[i]);
      assert key !in Elements(ts[i].guard.requireFields);
    }
    assert FieldRemoved(space, w1, |w.fields|).TransitionList() == ts;
  }

  lemma FreshFieldKey(w: Workflow)
    ensures var key := NextNumbered("field", FieldKeys(w.fields));
            key !in FieldKeys(w.fields) && CountFields(w.fields, key) == 0
  {
    hide FieldKeys;
  }

  // ---- actions --------------------------------------------------------------------------------------------------

  lemma ActionsKeep(w: Workflow, t: Target, actions: seq<Action>)
    requires NoDangling(w)
    ensures NoDangling(WithActions(w, t, actions))
  {
    hide StateKeys, FieldKeys;
    var ts := w.TransitionList();
    if t.OnTransition? && InRange(ts, t.index) {
      assert Bound(w, ts[t.index]);
      TransitionsKeep(w, ts[t.index := ts[t.index].(actions := actions)]);
    } else {
      SameTablesKeep(w, WithActions(w, t, actions));
    }
  }

  // ---- every edit ------------------------------------------------------------------------------------------------

  /** Loading a definition changes no reference. */
  lemma NormalizedKeepsMeaning(w: Workflow)
    ensures Normalized(w).StateList() == w.StateList() && |Normalized(w).TransitionList()| == |w.TransitionList()|
    ensures Normalized(w).states.Some? && Normalized(w).transitions.Some?
    ensures Normalized(w).fields == w.fields && Normalized(w).onSubmit == w.onSubmit &&
            Normalized(w).initial == w.initial
    ensures forall i :: 0 <= i < |w.TransitionList()| ==>
              var t, n := w.TransitionList()[i], Normalized(w).TransitionList()[i];
              n == t.(from := Some(t.Sources())) && n.Sources() == t.Sources()
    ensures Normalized(Normalized(w)) == Normalized(w)
  {
    var ts, ns := w.TransitionList(), Normalized(w).TransitionList();
    assert Normalized(Normalized(w)).TransitionList() == ns;
  }

  lemma StateEditKeeps(space: set<char>, e: Editor, edit: Edit)
    requires Sound(e) && Offered(e, edit)
    requires edit.AddState? || edit.UpdateState? || edit.RenameState? || edit.RemoveState? || edit.SetInitial? ||
             edit.SetMeta?
    ensures Sound(Reduce(space, e, edit))
  {
    hide NoDangling, StateAdded, StateRenamed, StateRemoved;
    var w, ss := e.def, e.def.StateList();
    match edit
    case SetMeta(slug, title) =>
      SameTablesKeep(w, w.(slug := Or(slug, w.slug), title := Or(title, w.title))) by { NoDanglingFacts(w); }
    case SetInitial(key) => SameTablesKeep(w, w.(initial := key)) by { NoDanglingFacts(w); }
    case AddState => AddStateKeeps(w);
    case UpdateState(i, p) =>
      if InRange(ss, i) {
        NoDanglingFacts(w);
        KeysAfterUpdate(ss, i, StatePatched(ss[i], p));
        SameTablesKeep(w, WithStates(w, ss[i := StatePatched(ss[i], p)]));
      }
    case RenameState(i, key) => if InRange(ss, i) { RenameStateKeeps(w, i, key); }
    case RemoveState(i) => if InRange(ss, i) { RemoveStateKeeps(w, i); }
  }

  lemma NoDanglingFacts(w: Workflow)
    requires NoDangling(w)
    ensures w.states.Some? && w.transitions.Some? && (w.StateList() == [] || w.initial in StateKeys(w.StateList()))
  {
  }

  lemma TransitionEditKeeps(space: set<char>, e: Editor, edit: Edit)
    requires Sound(e) && Offered(e, edit)
    requires edit.AddTransition? || edit.UpdateTransition? || edit.SetGuard? || edit.RemoveTransition?
    ensures Sound(Reduce(space, e, edit))
  {
    hide Bound, StateKeys, FieldKeys, NewTransition, TransitionPatched, NormalizeGuard, Elements;
    var w, ts := e.def, e.def.TransitionList();
    match edit
    case AddTransition => NewTransitionIsBound(w); TransitionsKeep(w, ts + [NewTransition(w)]);
    case UpdateTransition(i, p) => if InRange(ts, i) { UpdateTransitionKeeps(w, i, p); }
    case SetGuard(i, g) => if InRange(ts, i) { SetGuardKeeps(space, w, i, g); }
    case RemoveTransition(i) => if InRange(ts, i) { RemoveTransitionKeeps(w, i); }
  }

  lemma FieldEditKeeps(space: set<char>, e: Editor, edit: Edit)
    requires Sound(e)
    requires edit.AddField? || edit.UpdateField? || edit.RenameField? || edit.RemoveField?
    ensures Sound(Reduce(space, e, edit))
  {
    hide NoDangling, StateKeys, FieldRenamed, FieldRemoved, NextNumbered;
    var w := e.def;
    match edit
    case AddField =>
      NoDanglingFacts(w);
      FieldKeysAfterAppend(w.fields, FieldAdded(w).fields[|w.fields|]);
      SameTablesKeep(w, FieldAdded(w));
    case UpdateField(i, p) =>
      if InRange(w.fields, i) {
        NoDanglingFacts(w);
        FieldKeysAfterUpdate(w.fields, i, FieldPatched(w.fields[i], p));
        SameTablesKeep(w, w.(fields := w.fields[i := FieldPatched(w.fields[i], p)]));
      }
    case RenameField(i, key) =>
      if InRange(w.fields, i) { RenameFieldKeeps(space, w, i, key); SizesKept(space, w, i, key); }
    case RemoveField(i) => if InRange(w.fields, i) { RemoveFieldKeeps(space, w, i); }
  }

  lemma SizesKept(space: set<char>, w: Workflow, i: nat, key: string)
    requires i < |w.fields|
    ensures var w' := FieldRenamed(space, w, i, key);
            w'.StateList() == w.StateList() && |w'.fields| == |w.fields| &&
            |w'.TransitionList()| == |w.TransitionList()|
  {
  }

  lemma OtherEditKeeps(space: set<char>, e: Editor, edit: Edit)
    requires Sound(e) && Offered(e, edit)
    requires edit.AddAction? || edit.UpdateAction? || edit.RemoveAction? || edit.Select? || edit.Replace? ||
             edit.MarkSaved?
    ensures Sound(Reduce(space, e, edit))
  {
    hide NoDangling, Actions, Normalized;
    var w := e.def;
    match edit
    case AddAction(t, kind) => ActionsKeep(w, t, Actions(w, t) + [NewAction(kind)]);
    case UpdateAction(t, i, p) =>
      if InRange(Actions(w, t), i) { ActionsKeep(w, t, Actions(w, t)[i := ActionPatched(Actions(w, t)[i], p)]); }
    case RemoveAction(t, i) => if InRange(Actions(w, t), i) { ActionsKeep(w, t, Remove(Actions(w, t), i)); }
    case _ =>
  }

  lemma ReduceKeepsSound(space: set<char>, e: Editor, edit: Edit)
    requires Sound(e) && Offered(e, edit)
    ensures Sound(Reduce(space, e, edit))
  {
    hide Sound, Reduce, Offered;
    if edit.AddState? || edit.UpdateState? || edit.RenameState? || edit.RemoveState? || edit.SetInitial? ||
       edit.SetMeta? {
      StateEditKeeps(space, e, edit);
    } else if edit.AddTransition? || edit.UpdateTransition? || edit.SetGuard? || edit.RemoveTransition? {
      TransitionEditKeeps(space, e, edit);
    } else if edit.AddField? || edit.UpdateField? || edit.RenameField? || edit.RemoveField? {
      FieldEditKeeps(space, e, edit);
    } else {
      OtherEditKeeps(space, e, edit);
    }
  }

  /** A valid definition is loaded without dangling reference. */
  lemma StartIsSound(fm: Formats, w: Workflow)
    requires ValidWorkflow(fm, w)
    ensures Sound(Start(w))
  {
    hide ValidWorkflow, Normalized, StateKeys, FieldKeys, OpenStateKeys;
    var n, ts := Normalized(w), w.TransitionList();
    NormalizedKeepsMeaning(w);
    ValidReferences(fm, w);
    forall i | 0 <= i < |n.TransitionList()| ensures Bound(n, n.TransitionList()[i]) {
      assert n.TransitionList()[i].Sources() == ts[i].Sources();
    }
  }

  lemma ValidReferences(fm: Formats, w: Workflow)
    requires ValidWorkflow(fm, w)
    ensures w.initial in StateKeys(w.StateList())
    ensures forall i :: 0 <= i < |w.TransitionList()| ==>
              var t := w.TransitionList()[i];
              Elements(t.Sources()) <= StateKeys(w.StateList()) && t.to in StateKeys(w.StateList()) &&
              Elements(t.guard.requireFields) <= FieldKeys(w.fields)
  {
    hide StateOk, WorkflowFieldOk, AllActionsOk, IsKey, Blank;
    forall i | 0 <= i < |w.TransitionList()|
      ensures var t := w.TransitionList()[i];
              Elements(t.Sources()) <= StateKeys(w.StateList()) && t.to in StateKeys(w.StateList()) &&
              Elements(t.guard.requireFields) <= FieldKeys(w.fields)
    {
      assert TransitionOk(fm, w, i);
      OpenKeysAreKeys(w.StateList());
    }
  }

  lemma OpenKeysAreKeys(ss: seq<State>)
    ensures OpenStateKeys(ss) <= StateKeys(ss)
  {
  }

  /** A session: each editor follows from the one before by an edit that is offered. */
  ghost predicate Session(space: set<char>, es: seq<Editor>, edits: seq<Edit>) {
    |es| == |edits| + 1 &&
    forall i :: 0 <= i < |edits| ==> Offered(es[i], edits[i]) && es[i + 1] == Reduce(space, es[i], edits[i])
  }

  /** At no time in a session is there a dangling reference or a selection out of range. */
  lemma {:induction false} SessionsStaySound(space: set<char>, es: seq<Editor>, edits: seq<Edit>, n: nat)
    requires Session(space, es, edits) && Sound(es[0]) && n < |es|
    ensures Sound(es[n])
  {
    hide Sound, Reduce, Offered;
    if n > 0 {
      SessionsStaySound(space, es, edits, n - 1);
      assert Offered(es[n - 1], edits[n - 1]);
      ReduceKeepsSound(space, es[n - 1], edits[n - 1]);
    }
  }

  /** In particular in none that starts with a valid workflow. */
  lemma SessionsOfValidWorkflows(fm: Formats, w: Workflow, es: seq<Editor>, edits: seq<Edit>, n: nat)
    requires ValidWorkflow(fm, w) && Session(fm.space, es, edits) && es[0] == Start(w) && n < |es|
    ensures Sound(es[n])
  {
    hide ValidWorkflow, Sound, Session;
    StartIsSound(fm, w);
    SessionsStaySound(fm.space, es, edits, n);
  }
}
