/** What each edit of the form editor does, attribute by attribute, and what it leaves alone. */
module FormEdits {
  import opened Common
  import opened FormReducer
  import opened Objects
  import opened Text
  import D = Definitions

  /** What the form says and what is selected are as before, and there is something to save. */
  ghost predicate OnlyFields(s: Editor, s': Editor) {
    s'.meta == s.meta && s'.selected == s.selected && s'.dirty
  }

  /** One field may have changed, but for its key; the others have not. */
  ghost predicate OnlyField(s: Editor, s': Editor, i: nat) {
    OnlyFields(s, s') && |s'.fields| == |s.fields| && i < |s.fields| && s'.fields[i].key == s.fields[i].key &&
    forall j :: 0 <= j < |s.fields| && j != i ==> s'.fields[j] == s.fields[j]
  }

  lemma MetaIsSet(s: Editor, p: MetaPatch)
    ensures var s' := Reduce(s, SetMeta(p));
            s'.fields == s.fields && s'.selected == s.selected && s'.dirty && s'.meta.settings == s.meta.settings &&
            Gets(p.slug, s.meta.slug, s'.meta.slug) && Gets(p.title, s.meta.title, s'.meta.title) &&
            Gets(p.description, s.meta.description, s'.meta.description) &&
            Gets(p.workflow, s.meta.workflow, s'.meta.workflow)
  {
  }

  lemma SettingsAreSet(s: Editor, p: SettingsPatch)
    ensures var s' := Reduce(s, SetSettings(p));
            var was, now := s.meta.settings, s'.meta.settings;
            s'.fields == s.fields && s'.selected == s.selected && s'.dirty &&
            s'.meta.slug == s.meta.slug && s'.meta.title == s.meta.title &&
            s'.meta.description == s.meta.description && s'.meta.workflow == s.meta.workflow &&
            Gets(p.isPublic, was.isPublic, now.isPublic) && Gets(p.submitLabel, was.submitLabel, now.submitLabel) &&
            Gets(p.confirmationMessage, was.confirmationMessage, now.confirmationMessage)
  {
  }

  /** A new field comes last and is selected. It has a key of its own, the lowest free one, and two options to start
      with if its type takes options. */
  lemma FieldIsAdded(s: Editor, kind: D.FieldType)
    ensures var s' := Reduce(s, AddField(kind));
            s'.meta == s.meta && s'.selected == Some(|s.fields|) && s'.dirty &&
            |s'.fields| == |s.fields| + 1 && s'.fields[..|s.fields|] == s.fields &&
            var f := s'.fields[|s.fields|];
            (forall i :: 0 <= i < |s.fields| ==> s.fields[i].key != f.key) &&
            (exists n: nat :: n >= 1 && f.key == Numbered("field", n) &&
               forall m: nat :: 1 <= m < n ==>
                   exists i :: 0 <= i < |s.fields| && s.fields[i].key == Numbered("field", m)) &&
            f.kind == kind && f.caption == "Untitled question" && f.help == "" && f.placeholder == "" && !f.required &&
            f.validation == None && f.showIf == None &&
            f.options == if kind.Select? || kind.MultiSelect?
                         then [D.Choice("option1", "Option 1"), D.Choice("option2", "Option 2")] else []
  {
    var s' := Reduce(s, AddField(kind));
    var n := FirstFree("field", Keys(s.fields), 1, 1);
    assert s'.fields[|s.fields|].key == Numbered("field", n);
    forall m: nat | 1 <= m < n ensures exists i :: 0 <= i < |s.fields| && s.fields[i].key == Numbered("field", m) {
      assert Numbered("field", m) in Keys(s.fields);
    }
    forall i | 0 <= i < |s.fields| ensures s.fields[i].key != s'.fields[|s.fields|].key {
      assert s.fields[i].key in Keys(s.fields);
    }
  }

  /** What the patch gives is set, what it leaves out is as before, the key and the type stay, and so does all else. */
  lemma FieldIsUpdated(s: Editor, i: int, p: FieldPatch)
    ensures var s' := Reduce(s, UpdateField(i, p));
            if 0 <= i < |s.fields| then
              var was, now := s.fields[i], s'.fields[i];
              OnlyField(s, s', i) && now.kind == was.kind &&
              Gets(p.caption, was.caption, now.caption) && Gets(p.help, was.help, now.help) &&
              Gets(p.placeholder, was.placeholder, now.placeholder) && Gets(p.required, was.required, now.required) &&
              Gets(p.options, was.options, now.options) && Gets(p.validation, was.validation, now.validation) &&
              Gets(p.showIf, was.showIf, now.showIf)
            else s' == s
  {
  }

  /** Another type keeps the options if it takes some, and starts with two if there are none; it keeps the limits that
      apply to it. */
  lemma FieldIsRetyped(s: Editor, i: int, kind: D.FieldType)
    ensures var s' := Reduce(s, SetFieldType(i, kind));
            if 0 <= i < |s.fields| then
              var was, now := s.fields[i], s'.fields[i];
              OnlyField(s, s', i) && now.kind == kind && now.caption == was.caption && now.help == was.help &&
              now.placeholder == was.placeholder && now.required == was.required && now.showIf == was.showIf &&
              now.options == (if !(kind.Select? || kind.MultiSelect?) then []
                              else if was.options != [] then was.options
                              else [D.Choice("option1", "Option 1"), D.Choice("option2", "Option 2")]) &&
              Fits(was.validation, now.validation, kind)
            else s' == s
  {
  }

  /** The limits that apply to the type are those that there were; without any there is no validation. */
  ghost predicate Fits(was: Option<D.Validation>, now: Option<D.Validation>, kind: D.FieldType) {
    var text := kind.Text? || kind.TextArea? || kind.Email? || kind.Url?;
    (now.Some? <==>
     was.Some? &&
     ((text && (was.value.minLength.Some? || was.value.maxLength.Some? || was.value.pattern != "")) ||
      (kind.Number? && (was.value.min.Some? || was.value.max.Some?)))) &&
    (now.Some? ==>
       now.value.minLength == (if text then was.value.minLength else None) &&
       now.value.maxLength == (if text then was.value.maxLength else None) &&
       now.value.pattern == (if text then was.value.pattern else "") &&
       now.value.min == (if kind.Number? then was.value.min else None) &&
       now.value.max == (if kind.Number? then was.value.max else None))
  }

  /** No other field has the key of field i. */
  ghost predicate UsedOnce(fields: seq<D.Field>, i: nat)
    requires i < |fields|
  {
    forall j :: 0 <= j < |fields| && j != i ==> fields[j].key != fields[i].key
  }

  lemma {:induction false} CountIs(fields: seq<D.Field>, i: nat)
    requires i < |fields|
    ensures CountKey(fields, fields[i].key) >= 1
    ensures CountKey(fields, fields[i].key) == 1 <==> UsedOnce(fields, i)
  {
    var key := fields[i].key;
    CountsZero(fields[1..], key);
    if i > 0 {
      CountIs(fields[1..], i - 1);
      if fields[0].key != key && UsedOnce(fields[1..], i - 1) {
        forall j | 0 <= j < |fields| && j != i ensures fields[j].key != key {
          if j > 0 { assert fields[1..][j - 1] == fields[j]; }
        }
      }
      if UsedOnce(fields, i) {
        forall j | 0 <= j < |fields[1..]| && j != i - 1 ensures fields[1..][j].key != key {
          assert fields[1..][j] == fields[j + 1];
        }
      }
    } else {
      assert forall j :: 0 < j < |fields| ==> fields[j] == fields[1..][j - 1];
    }
  }

  /** The field gets the key; conditions on it follow if no other field has the old key. */
  lemma FieldIsRenamed(s: Editor, i: int, key: string)
    ensures var s' := Reduce(s, RenameField(i, key));
            if 0 <= i < |s.fields| then
              OnlyFields(s, s') && |s'.fields| == |s.fields| && s'.fields[i] == s.fields[i].(key := key) &&
              forall j :: 0 <= j < |s.fields| && j != i ==>
                var was, now := s.fields[j], s'.fields[j];
                now == was.(showIf := now.showIf) &&
                if was.showIf.Some? && was.showIf.value.field == s.fields[i].key && UsedOnce(s.fields, i)
                then now.showIf == Some(was.showIf.value.(field := key)) else now.showIf == was.showIf
            else s' == s
  {
    if 0 <= i < |s.fields| { CountIs(s.fields, i); }
  }

  /** The field goes and the others close up; conditions on it go too if no other field has its key. The selection
      stays on its field, and moves on to the next one, or back to the last, when its field goes. */
  lemma FieldIsRemoved(s: Editor, i: int)
    ensures var s' := Reduce(s, RemoveField(i));
            if 0 <= i < |s.fields| then
              s'.meta == s.meta && s'.dirty && |s'.fields| == |s.fields| - 1 &&
              (forall j :: 0 <= j < |s'.fields| ==>
                 var was, now := s.fields[if j < i then j else j + 1], s'.fields[j];
                 now == was.(showIf := now.showIf) &&
                 if was.showIf.Some? && was.showIf.value.field == s.fields[i].key && UsedOnce(s.fields, i)
                 then now.showIf == None else now.showIf == was.showIf) &&
              (s.selected.None? ==> s'.selected == None) &&
              (s.selected.Some? && s.selected.value < i ==> s'.selected == s.selected) &&
              (s.selected.Some? && s.selected.value > i ==> s'.selected == Some(s.selected.value - 1)) &&
              (s.selected == Some(i) ==>
                 s'.selected == if |s.fields| == 1 then None else if i < |s.fields| - 1 then Some(i) else Some(i - 1))
            else s' == s
  {
    hide MoveItem, Patched, Retyped, Renamed, Duplicated, NewField, Fresh;
    if 0 <= i < |s.fields| {
      var next := Remove(s.fields, i);
      CountsZero(next, s.fields[i].key);
      assert forall j :: 0 <= j < |next| ==> next[j] == s.fields[if j < i then j else j + 1];
      assert Fresh(next, s.fields[i].key) <==> UsedOnce(s.fields, i) by { FreshWithout(s.fields, i); }
    }
  }

  lemma FreshWithout(fields: seq<D.Field>, i: nat)
    requires i < |fields|
    ensures Fresh(Remove(fields, i), fields[i].key) <==> UsedOnce(fields, i)
  {
    var next := Remove(fields, i);
    if Fresh(next, fields[i].key) {
      forall j | 0 <= j < |fields| && j != i ensures fields[j].key != fields[i].key {
        assert fields[j] == next[if j < i then j else j - 1];
      }
    }
    if UsedOnce(fields, i) {
      forall j | 0 <= j < |next| ensures next[j].key != fields[i].key {
        assert next[j] == fields[if j < i then j else j + 1];
      }
    }
  }

  /** The copy comes right after the field and is selected; but for its key, which is its own, and its caption it is
      the same. */
  lemma FieldIsDuplicated(s: Editor, i: int)
    ensures var s' := Reduce(s, DuplicateField(i));
            if 0 <= i < |s.fields| then
              s'.meta == s.meta && s'.dirty && s'.selected == Some(i + 1) && |s'.fields| == |s.fields| + 1 &&
              (forall j :: 0 <= j <= i ==> s'.fields[j] == s.fields[j]) &&
              (forall j :: i + 1 < j < |s'.fields| ==> s'.fields[j] == s.fields[j - 1]) &&
              var was, copy := s.fields[i], s'.fields[i + 1];
              copy == was.(key := copy.key, caption := was.caption + " (copy)") &&
              was.key + "_copy" <= copy.key && (forall j :: 0 <= j < |s.fields| ==> s.fields[j].key != copy.key) &&
              ((forall j :: 0 <= j < |s.fields| ==> s.fields[j].key != was.key + "_copy") ==>
                 copy.key == was.key + "_copy")
            else s' == s
  {
    if 0 <= i < |s.fields| {
      forall j | 0 <= j < |s.fields| ensures s.fields[j].key in Keys(s.fields) {}
    }
  }

  /** The field and its neighbour above or below change places, and the selection goes along; at the ends nothing
      happens. */
  lemma FieldIsMoved(s: Editor, i: int, up: bool)
    ensures var s', target := Reduce(s, MoveField(i, up)), if up then i - 1 else i + 1;
            if 0 <= i < |s.fields| && 0 <= target < |s.fields| then
              s'.meta == s.meta && s'.dirty && |s'.fields| == |s.fields| &&
              s'.fields[target] == s.fields[i] && s'.fields[i] == s.fields[target] &&
              (forall j :: 0 <= j < |s.fields| && j != i && j != target ==> s'.fields[j] == s.fields[j]) &&
              s'.selected == (if s.selected == Some(i) then Some(target)
                              else if s.selected == Some(target) then Some(i) else s.selected)
            else s' == s
  {
    hide MoveItem, Remove, Patched, Retyped, Renamed, Removed, Duplicated, NewField;
    var target := if up then i - 1 else i + 1;
    if 0 <= i < |s.fields| && 0 <= target < |s.fields| { MovedByOne(s.fields, i, target); }
  }

  lemma MovedByOne(fields: seq<D.Field>, i: nat, target: nat)
    requires i < |fields| && target < |fields| && (target == i - 1 || target == i + 1)
    ensures var r := MoveItem(fields, i, target);
            |r| == |fields| && r[target] == fields[i] && r[i] == fields[target] &&
            forall j :: 0 <= j < |fields| && j != i && j != target ==> r[j] == fields[j]
  {
  }

  /** Selecting changes the selection only; loading a form keeps a selection that still fits; saving only clears the
      mark that there is something to save. */
  lemma RestIsKept(s: Editor, selection: Option<nat>, loaded: Meta, fields: seq<D.Field>)
    ensures var s' := Reduce(s, Select(selection));
            s'.selected == selection && s'.meta == s.meta && s'.fields == s.fields && s'.dirty == s.dirty
    ensures var s' := Reduce(s, Replace(loaded, fields));
            s'.meta == loaded && s'.fields == fields && s'.dirty &&
            s'.selected == if s.selected.Some? && s.selected.value < |fields| then s.selected else None
    ensures var s' := Reduce(s, MarkSaved);
            !s'.dirty && s'.meta == s.meta && s'.fields == s.fields && s'.selected == s.selected
  {
  }
}
