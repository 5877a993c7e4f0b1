/** What each edit of the workflow editor does, attribute by attribute, and what it leaves alone. */
module WorkflowEdits {
  import opened Common
  import opened DefinitionRules
  import opened Definitions
  import opened Objects
  import opened Text
  import opened WorkflowReducer

  /** There is something to save, and the selection is as before. */
  ghost predicate Edited(e: Editor, e': Editor) {
    e'.dirty && e'.selection == e.selection
  }

  ghost predicate SameMeta(w: Workflow, w': Workflow) {
    w'.slug == w.slug && w'.title == w.title
  }

  /** Everything but the states is as before. */
  ghost predicate OnlyStates(w: Workflow, w': Workflow) {
    SameMeta(w, w') && w'.initial == w.initial && w'.fields == w.fields && w'.onSubmit == w.onSubmit &&
    w'.TransitionList() == w.TransitionList()
  }

  ghost predicate OnlyTransitions(w: Workflow, w': Workflow) {
    SameMeta(w, w') && w'.initial == w.initial && w'.fields == w.fields && w'.onSubmit == w.onSubmit &&
    w'.StateList() == w.StateList()
  }

  ghost predicate OnlyFields(w: Workflow, w': Workflow) {
    SameMeta(w, w') && w'.initial == w.initial && w'.onSubmit == w.onSubmit && w'.StateList() == w.StateList() &&
    w'.TransitionList() == w.TransitionList()
  }

  /** At most the item at i has changed. */
  ghost predicate OnlyAt<T(!new)>(was: seq<T>, now: seq<T>, i: nat) {
    |now| == |was| && i < |was| && forall j :: 0 <= j < |was| && j != i ==> now[j] == was[j]
  }

  /** The item at i is gone, and the others have closed up. */
  ghost predicate Closed<T(!new)>(was: seq<T>, now: seq<T>, i: nat) {
    i < |was| && |now| == |was| - 1 && forall j :: 0 <= j < |now| ==> now[j] == was[if j < i then j else j + 1]
  }

  /** One item has come after the others. */
  ghost predicate Longer<T(!new)>(was: seq<T>, now: seq<T>) {
    |now| == |was| + 1 && now[..|was|] == was
  }

  /** The lowest number whose name is free. */
  ghost predicate LowestFree(prefix: string, taken: set<string>, key: string) {
    key !in taken &&
    exists n: nat :: n >= 1 && key == Numbered(prefix, n) &&
      forall m: nat :: 1 <= m < n ==> Numbered(prefix, m) in taken
  }

  lemma NextIsLowestFree(prefix: string, taken: set<string>)
    ensures LowestFree(prefix, taken, NextNumbered(prefix, taken))
  {
    var n := FirstFree(prefix, taken, 1, 1);
    assert NextNumbered(prefix, taken) == Numbered(prefix, n);
  }

  // ---- the workflow itself ------------------------------------------------------------------------------

  lemma MetaIsSet(space: set<char>, e: Editor, slug: Option<string>, title: Option<string>)
    ensures var e' := Reduce(space, e, SetMeta(slug, title));
            Edited(e, e') && Gets(slug, e.def.slug, e'.def.slug) && Gets(title, e.def.title, e'.def.title) &&
            e'.def.initial == e.def.initial && e'.def.states == e.def.states && e'.def.fields == e.def.fields &&
            e'.def.onSubmit == e.def.onSubmit && e'.def.transitions == e.def.transitions
  {
  }

  lemma InitialIsSet(space: set<char>, e: Editor, key: string)
    ensures var e' := Reduce(space, e, SetInitial(key));
            Edited(e, e') && e'.def.initial == key && SameMeta(e.def, e'.def) && e'.def.states == e.def.states &&
            e'.def.fields == e.def.fields && e'.def.onSubmit == e.def.onSubmit &&
            e'.def.transitions == e.def.transitions
  {
  }

  // ---- states ---------------------------------------------------------------------------------------------

  /** A new state comes last and is selected; it is the initial one if none was declared. */
  lemma StateIsAdded(space: set<char>, e: Editor)
    ensures var e' := Reduce(space, e, AddState);
            var w, w', ss := e.def, e'.def, e.def.StateList();
            e'.dirty && e'.selection == StateAt(|ss|) && SameMeta(w, w') && w'.fields == w.fields &&
            w'.onSubmit == w.onSubmit && w'.TransitionList() == w.TransitionList() && Longer(ss, w'.StateList()) &&
            var s := w'.StateList()[|ss|];
            LowestFree("state", StateKeys(ss), s.key) && s.caption == "New state" && s.color == "gray" && !s.terminal &&
            w'.initial == if w.initial in StateKeys(ss) then w.initial else s.key
  {
    NextIsLowestFree("state", StateKeys(e.def.StateList()));
  }

  lemma StateIsUpdated(space: set<char>, e: Editor, i: int, p: StatePatch)
    ensures var e', ss := Reduce(space, e, UpdateState(i, p)), e.def.StateList();
            if 0 <= i < |ss| then
              Edited(e, e') && OnlyStates(e.def, e'.def) && OnlyAt(ss, e'.def.StateList(), i) &&
              var was, now := ss[i], e'.def.StateList()[i];
              now.key == was.key && Gets(p.caption, was.caption, now.caption) &&
              Gets(p.color, was.color, now.color) && Gets(p.terminal, was.terminal, now.terminal)
            else e' == e
  {
  }

  ghost predicate UsedOnce(ss: seq<State>, i: nat)
    requires i < |ss|
  {
    forall j :: 0 <= j < |ss| && j != i ==> ss[j].key != ss[i].key
  }

  lemma {:induction false} CountIs(ss: seq<State>, i: nat)
    requires i < |ss|
    ensures CountStates(ss, ss[i].key) == 1 <==> UsedOnce(ss, i)
    ensures CountStates(ss, ss[i].key) >= 1
  {
    var key := ss[i].key;
    StateKeysCons(ss);
    if i > 0 {
      CountIs(ss[1..], i - 1);
      if UsedOnce(ss, i) {
        forall j | 0 <= j < |ss[1..]| && j != i - 1 ensures ss[1..][j].key != key { assert ss[1..][j] == ss[j + 1]; }
      }
      if ss[0].key != key && UsedOnce(ss[1..], i - 1) {
        forall j | 0 <= j < |ss| && j != i ensures ss[j].key != key {
          if j > 0 { assert ss[1..][j - 1] == ss[j]; }
        }
      }
    } else {
      assert forall j :: 0 < j < |ss| ==> ss[j] == ss[1..][j - 1];
      if CountStates(ss[1..], key) == 0 {
        forall j | 0 < j < |ss| ensures ss[j].key != key { assert ss[1..][j - 1].key in StateKeys(ss[1..]); }
      }
    }
  }

  /** The state gets the key; the initial state, sources and targets follow if no other state has the old one. */
  lemma StateIsRenamed(space: set<char>, e: Editor, i: int, key: string)
    ensures var e', ss, ts := Reduce(space, e, RenameState(i, key)), e.def.StateList(), e.def.TransitionList();
            if 0 <= i < |ss| then
              var w, w' := e.def, e'.def;
              Edited(e, e') && SameMeta(w, w') && w'.fields == w.fields && w'.onSubmit == w.onSubmit &&
              OnlyAt(ss, w'.StateList(), i) && w'.StateList()[i] == ss[i].(key := key) &&
              |w'.TransitionList()| == |ts| &&
              if UsedOnce(ss, i) then
                w'.initial == (if w.initial == ss[i].key then key else w.initial) &&
                forall j :: 0 <= j < |ts| ==>
                  var was, now := ts[j], w'.TransitionList()[j];
                  now == was.(from := now.from, to := now.to) &&
                  now.to == (if was.to == ss[i].key then key else was.to) &&
                  |now.Sources()| == |was.Sources()| &&
                  forall k :: 0 <= k < |was.Sources()| ==>
                    now.Sources()[k] == if was.Sources()[k] == ss[i].key then key else was.Sources()[k]
              else w'.initial == w.initial && w'.TransitionList() == ts
            else e' == e
  {
    if 0 <= i < |e.def.StateList()| { CountIs(e.def.StateList(), i); }
  }

  /** The state goes and the others close up; if no other state has its key, the first remaining state becomes the
      initial one in its place. */
  lemma StateIsRemoved(space: set<char>, e: Editor, i: int)
    ensures var e', ss := Reduce(space, e, RemoveState(i)), e.def.StateList();
            if 0 <= i < |ss| then
              var w, w' := e.def, e'.def;
              e'.dirty && e'.selection == Whole && SameMeta(w, w') && w'.fields == w.fields &&
              w'.onSubmit == w.onSubmit && Closed(ss, w'.StateList(), i) &&
              w'.initial == (if w.initial != ss[i].key || !UsedOnce(ss, i) then w.initial
                             else if w'.StateList() == [] then "" else w'.StateList()[0].key) &&
              (!UsedOnce(ss, i) ==> w'.TransitionList() == w.TransitionList())
            else e' == e
  {
    hide Detached;
    var ss := e.def.StateList();
    if 0 <= i < |ss| { UsedOnceWithout(ss, i); }
  }

  lemma UsedOnceWithout(ss: seq<State>, i: nat)
    requires i < |ss|
    ensures CountStates(Remove(ss, i), ss[i].key) == 0 <==> UsedOnce(ss, i)
  {
    var rest := Remove(ss, i);
    forall j | UsedOnce(ss, i) && 0 <= j < |rest| ensures rest[j].key != ss[i].key {
      assert rest[j] == ss[if j < i then j else j + 1];
    }
    if ss[i].key !in StateKeys(rest) {
      forall j | 0 <= j < |ss| && j != i ensures ss[j].key != ss[i].key {
        assert ss[j] == rest[if j < i then j else j - 1];
      }
    }
  }

  // ---- transitions ------------------------------------------------------------------------------------------

  /** A new transition comes last and is selected. It leaves the initial state, or the first one, for the first other
      state if there is one, and asks for nothing. */
  lemma TransitionIsAdded(space: set<char>, e: Editor)
    ensures var e', ss, ts := Reduce(space, e, AddTransition), e.def.StateList(), e.def.TransitionList();
            e'.dirty && e'.selection == TransitionAt(|ts|) && OnlyTransitions(e.def, e'.def) &&
            Longer(ts, e'.def.TransitionList()) &&
            var t := e'.def.TransitionList()[|ts|];
            var source := if e.def.initial in StateKeys(ss) then e.def.initial else if ss == [] then "" else ss[0].key;
            LowestFree("transition", set j | 0 <= j < |ts| :: ts[j].key, t.key) && t.caption == "New transition" &&
            t.Sources() == (if source == "" then [] else [source]) && t.guard == Guard([], []) && t.actions == [] &&
            (if exists j :: 0 <= j < |ss| && ss[j].key != source
             then exists j :: 0 <= j < |ss| && ss[j].key != source && t.to == ss[j].key &&
                    forall l :: 0 <= l < j ==> ss[l].key == source
             else t.to == source)
  {
    var ss, ts := e.def.StateList(), e.def.TransitionList();
    NextIsLowestFree("transition", TransitionKeys(ts));
    assert TransitionKeys(ts) == set j | 0 <= j < |ts| :: ts[j].key;
    FirstOtherIs(ss, if e.def.initial in StateKeys(ss) then e.def.initial else if ss == [] then "" else ss[0].key);
  }

  lemma {:induction false} FirstOtherIs(ss: seq<State>, source: string)
    ensures if exists j :: 0 <= j < |ss| && ss[j].key != source
            then exists j :: 0 <= j < |ss| && ss[j].key != source && FirstOther(ss, source) == ss[j].key &&
                   forall l :: 0 <= l < j ==> ss[l].key == source
            else FirstOther(ss, source) == source
  {
    if ss != [] && ss[0].key == source {
      FirstOtherIs(ss[1..], source);
      assert forall j :: 0 < j < |ss| ==> ss[j] == ss[1..][j - 1];
      if j :| 0 <= j < |ss[1..]| && ss[1..][j].key != source && FirstOther(ss[1..], source) == ss[1..][j].key &&
              forall l :: 0 <= l < j ==> ss[1..][l].key == source {
        assert ss[j + 1].key != source && forall l :: 0 <= l < j + 1 ==> ss[l].key == source;
      }
    }
  }

  /** New sources are put in the order of the states, without repetition. */
  lemma TransitionIsUpdated(space: set<char>, e: Editor, i: int, p: TransitionPatch)
    ensures var e', ts := Reduce(space, e, UpdateTransition(i, p)), e.def.TransitionList();
            if 0 <= i < |ts| then
              Edited(e, e') && OnlyTransitions(e.def, e'.def) && OnlyAt(ts, e'.def.TransitionList(), i) &&
              var was, now := ts[i], e'.def.TransitionList()[i];
              now == was.(key := now.key, caption := now.caption, from := now.from, to := now.to) &&
              Gets(p.key, was.key, now.key) && Gets(p.caption, was.caption, now.caption) &&
              Gets(p.to, was.to, now.to) &&
              match p.from
              case None => now.from == was.from
              case Some(from) =>
                NoDuplicates(now.Sources()) && (forall k :: k in now.Sources() <==> k in from) &&
                now.Sources() == OrderByStates(e.def, from)
            else e' == e
  {
    hide OrderByStates, NoDuplicates;
    if p.from.Some? {
      var r := OrderByStates(e.def, p.from.value);
      assert forall k :: k in r <==> k in Elements(r);
    }
  }

  lemma GuardIsSet(space: set<char>, e: Editor, i: int, g: Guard)
    ensures var e', ts := Reduce(space, e, SetGuard(i, g)), e.def.TransitionList();
            if 0 <= i < |ts| then
              Edited(e, e') && OnlyTransitions(e.def, e'.def) && OnlyAt(ts, e'.def.TransitionList(), i) &&
              var was, now := ts[i], e'.def.TransitionList()[i];
              now == was.(guard := now.guard) && NoDuplicates(now.guard.roles) &&
              NoDuplicates(now.guard.requireFields) &&
              (forall k :: k in now.guard.requireFields <==> k in g.requireFields) &&
              forall r :: r in now.guard.roles <==>
                r != "" && exists j :: 0 <= j < |g.roles| && Trim(space, g.roles[j]) == r
            else e' == e
  {
    hide Trim, Unique, NoDuplicates, TrimmedRoles;
    var n := NormalizeGuard(space, g);
    assert forall k :: k in n.requireFields <==> k in Elements(n.requireFields);
    assert forall k :: k in g.requireFields <==> k in Elements(g.requireFields);
    RolesAre(space, g);
  }

  lemma RolesAre(space: set<char>, g: Guard)
    ensures forall r :: r in NormalizeGuard(space, g).roles <==>
              r != "" && exists j :: 0 <= j < |g.roles| && Trim(space, g.roles[j]) == r
  {
    hide Trim;
    var n := NormalizeGuard(space, g);
    forall r
      ensures r in n.roles <==> r != "" && exists j :: 0 <= j < |g.roles| && Trim(space, g.roles[j]) == r
    {
      assert r in n.roles <==> r in Elements(n.roles);
    }
  }

  lemma TransitionIsRemoved(space: set<char>, e: Editor, i: int)
    ensures var e', ts := Reduce(space, e, RemoveTransition(i)), e.def.TransitionList();
            if 0 <= i < |ts| then
              e'.dirty && e'.selection == Whole && OnlyTransitions(e.def, e'.def) &&
              Closed(ts, e'.def.TransitionList(), i)
            else e' == e
  {
  }

  // ---- fields -----------------------------------------------------------------------------------------------

  lemma FieldIsAdded(space: set<char>, e: Editor)
    ensures var e', fs := Reduce(space, e, AddField), e.def.fields;
            e'.dirty && e'.selection == FieldAt(|fs|) && OnlyFields(e.def, e'.def) && Longer(fs, e'.def.fields) &&
            var f := e'.def.fields[|fs|];
            LowestFree("field", FieldKeys(fs), f.key) && f.kind.Text? && f.caption == "New field" && f.options == []
  {
    NextIsLowestFree("field", FieldKeys(e.def.fields));
  }

  /** Only a select field has options, and it has at least the two to start with. */
  lemma FieldIsUpdated(space: set<char>, e: Editor, i: int, p: FieldPatch)
    ensures var e', fs := Reduce(space, e, UpdateField(i, p)), e.def.fields;
            if 0 <= i < |fs| then
              Edited(e, e') && OnlyFields(e.def, e'.def) && OnlyAt(fs, e'.def.fields, i) &&
              var was, now := fs[i], e'.def.fields[i];
              now.key == was.key && Gets(p.caption, was.caption, now.caption) && Gets(p.kind, was.kind, now.kind) &&
              var given := if p.options.Some? then p.options.value else was.options;
              now.options == (if !now.kind.Select? then []
                              else if given == [] then [Choice("option1", "Option 1"), Choice("option2", "Option 2")]
                              else given)
            else e' == e
  {
  }

  ghost predicate FieldUsedOnce(fs: seq<WorkflowField>, i: nat)
    requires i < |fs|
  {
    forall j :: 0 <= j < |fs| && j != i ==> fs[j].key != fs[i].key
  }

  lemma {:induction false} FieldCountIs(fs: seq<WorkflowField>, i: nat)
    requires i < |fs|
    ensures CountFields(fs, fs[i].key) == 1 <==> FieldUsedOnce(fs, i)
    ensures CountFields(fs, fs[i].key) >= 1
  {
    var key := fs[i].key;
    FieldKeysCons(fs);
    if i > 0 {
      FieldCountIs(fs[1..], i - 1);
      if FieldUsedOnce(fs, i) {
        forall j | 0 <= j < |fs[1..]| && j != i - 1 ensures fs[1..][j].key != key { assert fs[1..][j] == fs[j + 1]; }
      }
      if fs[0].key != key && FieldUsedOnce(fs[1..], i - 1) {
        forall j | 0 <= j < |fs| && j != i ensures fs[j].key != key {
          if j > 0 { assert fs[1..][j - 1] == fs[j]; }
        }
      }
    } else {
      assert forall j :: 0 < j < |fs| ==> fs[j] == fs[1..][j - 1];
      if CountFields(fs[1..], key) == 0 {
        forall j | 0 < j < |fs| ensures fs[j].key != key { assert fs[1..][j - 1].key in FieldKeys(fs[1..]); }
      }
    }
  }

  /** A transition whose guard requires other fields than before, or the same in its normal form. */
  ghost predicate RequiresNow(was: Transition, now: Transition, gone: string, instead: Option<string>) {
    now == was.(guard := now.guard) &&
    if gone !in was.guard.requireFields then now.guard == was.guard
    else
      forall k :: k in now.guard.requireFields <==>
        (k in was.guard.requireFields && k != gone) || instead == Some(k)
  }

  lemma FieldIsRenamed(space: set<char>, e: Editor, i: int, key: string)
    ensures var e', fs, ts := Reduce(space, e, RenameField(i, key)), e.def.fields, e.def.TransitionList();
            if 0 <= i < |fs| then
              var w, w' := e.def, e'.def;
              Edited(e, e') && SameMeta(w, w') && w'.initial == w.initial && w'.onSubmit == w.onSubmit &&
              w'.StateList() == w.StateList() && OnlyAt(fs, w'.fields, i) && w'.fields[i] == fs[i].(key := key) &&
              |w'.TransitionList()| == |ts| &&
              if FieldUsedOnce(fs, i) then
                forall j :: 0 <= j < |ts| ==> RequiresNow(ts[j], w'.TransitionList()[j], fs[i].key, Some(key))
              else w'.TransitionList() == ts
            else e' == e
  {
    hide NormalizeGuard, RequiresNow, Replaced;
    var fs, ts := e.def.fields, e.def.TransitionList();
    if 0 <= i < |fs| {
      FieldCountIs(fs, i);
      forall j | 0 <= j < |ts| {
        RequiredReplaced(space, ts[j], fs[i].key, key);
      }
    }
  }

  lemma ReplacedHas(was: seq<string>, gone: string, key: string, k: string)
    ensures k in Replaced(was, gone, key) <==> (k in was && k != gone) || (gone in was && k == key)
  {
    var r := Replaced(was, gone, key);
    if k in r {
      var j :| 0 <= j < |r| && r[j] == k;
      assert was[j] in was;
    }
    if k in was && k != gone {
      var j :| 0 <= j < |was| && was[j] == k;
      assert r[j] == k;
    }
    if gone in was && k == key {
      var j :| 0 <= j < |was| && was[j] == gone;
      assert r[j] == key;
    }
  }

  lemma RequiredReplaced(space: set<char>, t: Transition, gone: string, key: string)
    ensures var now := if gone in t.guard.requireFields
                       then WithRequired(space, t, Replaced(t.guard.requireFields, gone, key)) else t;
            RequiresNow(t, now, gone, Some(key))
  {
    var was, r := t.guard.requireFields, Replaced(t.guard.requireFields, gone, key);
    var g := NormalizeGuard(space, t.guard.(requireFields := r));
    hide NormalizeGuard, Replaced;
    forall k { ReplacedHas(was, gone, key, k); }
    assert forall k :: k in g.requireFields <==> k in Elements(g.requireFields);
    assert forall k :: k in r <==> k in Elements(r);
  }

  lemma FieldIsRemoved(space: set<char>, e: Editor, i: int)
    ensures var e', fs, ts := Reduce(space, e, RemoveField(i)), e.def.fields, e.def.TransitionList();
            if 0 <= i < |fs| then
              var w, w' := e.def, e'.def;
              e'.dirty && e'.selection == Whole && SameMeta(w, w') && w'.initial == w.initial &&
              w'.onSubmit == w.onSubmit && w'.StateList() == w.StateList() && Closed(fs, w'.fields, i) &&
              |w'.TransitionList()| == |ts| &&
              if FieldUsedOnce(fs, i) then
                forall j :: 0 <= j < |ts| ==> RequiresNow(ts[j], w'.TransitionList()[j], fs[i].key, None)
              else w'.TransitionList() == ts
            else e' == e
  {
    hide NormalizeGuard, RequiresNow, Drop;
    var fs, ts := e.def.fields, e.def.TransitionList();
    if 0 <= i < |fs| {
      FieldUsedOnceWithout(fs, i);
      forall j | 0 <= j < |ts| {
        RequiredDropped(space, ts[j], fs[i].key);
      }
    }
  }

  lemma RequiredDropped(space: set<char>, t: Transition, gone: string)
    ensures var now := if gone in t.guard.requireFields
                       then WithRequired(space, t, Drop(t.guard.requireFields, {gone})) else t;
            RequiresNow(t, now, gone, None)
  {
    hide Drop;
    var r := Drop(t.guard.requireFields, {gone});
    var g := NormalizeGuard(space, t.guard.(requireFields := r));
    assert forall k :: k in g.requireFields <==> k in Elements(g.requireFields);
    assert forall k :: k in r <==> k in Elements(r);
  }

  lemma FieldUsedOnceWithout(fs: seq<WorkflowField>, i: nat)
    requires i < |fs|
    ensures CountFields(Remove(fs, i), fs[i].key) == 0 <==> FieldUsedOnce(fs, i)
  {
    var rest := Remove(fs, i);
    forall j | FieldUsedOnce(fs, i) && 0 <= j < |rest| ensures rest[j].key != fs[i].key {
      assert rest[j] == fs[if j < i then j else j + 1];
    }
    if fs[i].key !in FieldKeys(rest) {
      forall j | 0 <= j < |fs| && j != i ensures fs[j].key != fs[i].key {
        assert fs[j] == rest[if j < i then j else j - 1];
      }
    }
  }

  // ---- actions ----------------------------------------------------------------------------------------------

  /** The actions that an edit is about; a transition that is not there has none. */
  ghost predicate ActionsAre(w: Workflow, t: Target, actions: seq<Action>) {
    match t
    case OnSubmit => actions == w.onSubmit
    case OnTransition(i) =>
      actions == if 0 <= i < |w.TransitionList()| then w.TransitionList()[i].actions else []
  }

  /** Nothing but the actions of the target has changed. */
  ghost predicate OnlyActions(w: Workflow, w': Workflow, t: Target) {
    SameMeta(w, w') && w'.initial == w.initial && w'.fields == w.fields && w'.StateList() == w.StateList() &&
    match t
    case OnSubmit => w'.transitions == w.transitions
    case OnTransition(i) =>
      w'.onSubmit == w.onSubmit && |w'.TransitionList()| == |w.TransitionList()| &&
      forall j :: 0 <= j < |w.TransitionList()| ==>
        w'.TransitionList()[j] ==
        if j == i then w.TransitionList()[j].(actions := w'.TransitionList()[j].actions) else w.TransitionList()[j]
  }

  ghost predicate Exists(w: Workflow, t: Target) {
    t.OnTransition? ==> 0 <= t.index < |w.TransitionList()|
  }

  /** A new action of a known type comes last, with nothing filled in but the start of a webhook's address. */
  lemma ActionIsAdded(space: set<char>, e: Editor, t: Target, kind: KnownAction)
    ensures var e', was := Reduce(space, e, AddAction(t, kind)), Actions(e.def, t);
            ActionsAre(e.def, t, was) && Edited(e, e') && OnlyActions(e.def, e'.def, t) &&
            (Exists(e.def, t) ==>
               var added := Action(kind, if kind.Webhook? then "https://" else "", "", "", "", "", "");
               ActionsAre(e'.def, t, was + [added]))
  {
  }

  /** Another type replaces the action by a new one; otherwise what the patch gives is set and the rest is kept. */
  lemma ActionIsUpdated(space: set<char>, e: Editor, t: Target, i: int, p: ActionPatch)
    ensures var e', was := Reduce(space, e, UpdateAction(t, i, p)), Actions(e.def, t);
            if 0 <= i < |was| then
              var now := Actions(e'.def, t);
              ActionsAre(e'.def, t, now) && Edited(e, e') && OnlyActions(e.def, e'.def, t) && OnlyAt(was, now, i) &&
              var a, b := was[i], now[i];
              if p.kind.Some? && p.kind.value != a.kind then
                b == Action(p.kind.value, if p.kind.value.Webhook? then "https://" else "", "", "", "", "", "")
              else
                b.kind == a.kind && Gets(p.url, a.url, b.url) && Gets(p.to, a.to, b.to) &&
                Gets(p.subject, a.subject, b.subject) && Gets(p.body, a.body, b.body) &&
                Gets(p.user, a.user, b.user) && Gets(p.role, a.role, b.role)
            else e' == e
  {
  }

  lemma ActionIsRemoved(space: set<char>, e: Editor, t: Target, i: int)
    ensures var e', was := Reduce(space, e, RemoveAction(t, i)), Actions(e.def, t);
            if 0 <= i < |was| then
              var now := Actions(e'.def, t);
              ActionsAre(e'.def, t, now) && Edited(e, e') && OnlyActions(e.def, e'.def, t) && Closed(was, now, i)
            else e' == e
  {
  }

  // ---- the rest ---------------------------------------------------------------------------------------------

  /** A selection that does not fit is one of the workflow as a whole. */
  ghost predicate SelectsIn(w: Workflow, asked: Selection, now: Selection) {
    var fits := match asked
      case Whole => true
      case StateAt(i) => i < |w.StateList()|
      case TransitionAt(i) => i < |w.TransitionList()|
      case FieldAt(i) => i < |w.fields|;
    now == if fits then asked else Whole
  }

  lemma RestIsKept(space: set<char>, e: Editor, selection: Selection, def: Workflow)
    ensures var e' := Reduce(space, e, Edit.Select(selection));
            e'.def == e.def && e'.dirty == e.dirty && SelectsIn(e.def, selection, e'.selection)
    ensures var e' := Reduce(space, e, Replace(def));
            e'.dirty && SelectsIn(def, e.selection, e'.selection) && SameMeta(def, e'.def) &&
            e'.def.initial == def.initial && e'.def.StateList() == def.StateList() && e'.def.fields == def.fields &&
            e'.def.onSubmit == def.onSubmit && |e'.def.TransitionList()| == |def.TransitionList()| &&
            forall j :: 0 <= j < |def.TransitionList()| ==>
              var was, now := def.TransitionList()[j], e'.def.TransitionList()[j];
              now.Sources() == was.Sources() && now == was.(from := now.from)
    ensures var e' := Reduce(space, e, MarkSaved);
            !e'.dirty && e'.def == e.def && e'.selection == e.selection
  {
  }
}
