/** The override-or-delegate rules of the dynamic property descriptor, on values.

    A decorator holds five optional scalar overrides and a table from editor
    kind to editor. Setter calls change that state one at a time; every query
    answers with the override in force for its field, or else with the wrapped
    descriptor's own answer. */
module Overlay {
  import opened Handles

  /** Everything a caller can override: the five scalar fields and one editor per kind. */
  datatype Field =
    | ReadOnlyField
    | CategoryField
    | ConverterField
    | DescriptionField
    | DisplayNameField
    | EditorField(kind: TypeKey)

  /** The answer a query gives, whichever field it is about. */
  datatype Value = Flag(flag: bool) | Text(text: string) | Handle(ref: Ref)

  /** One call of a decorator setter. */
  datatype Setter =
    | SetReadOnly(readOnly: bool)
    | SetCategory(category: string)
    | SetConverter(converter: Ref)
    | SetDescription(description: string)
    | SetDisplayName(displayName: string)
    | SetEditor(kind: TypeKey, editor: Ref)
  {
    /** The field the call writes. */
    function Target(): Field {
      match this
      case SetReadOnly(_) => ReadOnlyField
      case SetCategory(_) => CategoryField
      case SetConverter(_) => ConverterField
      case SetDescription(_) => DescriptionField
      case SetDisplayName(_) => DisplayNameField
      case SetEditor(k, _) => EditorField(k)
    }

    /** The override the call leaves in force for its field: None when it
        clears an editor override (a null editor), the written value otherwise. */
    function Written(): Option<Value> {
      match this
      case SetReadOnly(b) => Some(Flag(b))
      case SetCategory(s) => Some(Text(s))
      case SetConverter(c) => Some(Handle(c))
      case SetDescription(s) => Some(Text(s))
      case SetDisplayName(s) => Some(Text(s))
      case SetEditor(_, e) => if e == Null then None else Some(Handle(e))
    }
  }

  /** The decorator's own state: one "unset | set(v)" slot per scalar field
      and the editor override table. */
  datatype Overrides = Overrides(
    readOnly: Option<bool>,
    category: Option<string>,
    converter: Option<Ref>,
    description: Option<string>,
    displayName: Option<string>,
    editors: map<TypeKey, Ref>)

  /** The state of a freshly constructed decorator: nothing overridden. */
  const Empty := Overrides(None, None, None, None, None, map[])

  /** The editor table never stores a null editor: clearing removes the entry. */
  predicate NoNullEditors(s: Overrides) {
    Null !in s.editors.Values
  }

  /** The override currently recorded for field `f`, if any. */
  function Slot(s: Overrides, f: Field): Option<Value> {
    match f
    case ReadOnlyField => if s.readOnly.Some? then Some(Flag(s.readOnly.value)) else None
    case CategoryField => if s.category.Some? then Some(Text(s.category.value)) else None
    case ConverterField => if s.converter.Some? then Some(Handle(s.converter.value)) else None
    case DescriptionField => if s.description.Some? then Some(Text(s.description.value)) else None
    case DisplayNameField => if s.displayName.Some? then Some(Text(s.displayName.value)) else None
    case EditorField(k) => if k in s.editors then Some(Handle(s.editors[k])) else None
  }

  /** The effect of one setter call: its own field now holds what the call
      wrote (or nothing, for a cleared editor) and every other field keeps
      its override. */
  function Apply(s: Overrides, op: Setter): (r: Overrides)
    ensures Slot(r, op.Target()) == op.Written()
    ensures forall f :: f != op.Target() ==> Slot(r, f) == Slot(s, f)
    ensures NoNullEditors(s) ==> NoNullEditors(r)
  {
    match op
    case SetReadOnly(b) => s.(readOnly := Some(b))
    case SetCategory(c) => s.(category := Some(c))
    case SetConverter(c) => s.(converter := Some(c))
    case SetDescription(d) => s.(description := Some(d))
    case SetDisplayName(n) => s.(displayName := Some(n))
    case SetEditor(k, e) =>
      if e == Null then s.(editors := s.editors - {k}) else s.(editors := s.editors[k := e])
  }

  /** The state after the setter calls `ops`, made in order, starting from `s`. */
  function Replay(s: Overrides, ops: seq<Setter>): Overrides
    decreases |ops|
  {
    if ops == [] then s else Replay(Apply(s, ops[0]), ops[1..])
  }

  /** Reference definition of "the latest write per field wins": the override
      in force for `f` is what the LAST call that targets `f` left, and none
      if no call targets `f`. */
  function LatestOverride(ops: seq<Setter>, f: Field): Option<Value>
    decreases |ops|
  {
    if ops == [] then None
    else if ops[|ops| - 1].Target() == f then ops[|ops| - 1].Written()
    else LatestOverride(ops[..|ops| - 1], f)
  }

  /** What a query about `f` answers: the override when one is in force,
      otherwise the wrapped descriptor's own value `baseValue`. */
  function Effective(s: Overrides, baseValue: Value, f: Field): Value {
    match Slot(s, f)
    case Some(v) => v
    case None => baseValue
  }

  /** One more call at the end of a history is one more Apply. */
  lemma {:induction false} ReplayAppend(s: Overrides, ops: seq<Setter>, op: Setter)
    ensures Replay(s, ops + [op]) == Apply(Replay(s, ops), op)
    decreases |ops|
  {
    if ops == [] {
      assert [op][1..] == [];
    } else {
      assert (ops + [op])[0] == ops[0];
      assert (ops + [op])[1..] == ops[1..] + [op];
      ReplayAppend(Apply(s, ops[0]), ops[1..], op);
    }
  }

  /** Replaying from the empty state never leaves a null in the editor table. */
  lemma {:induction false} ReplayKeepsNoNullEditors(s: Overrides, ops: seq<Setter>)
    requires NoNullEditors(s)
    ensures NoNullEditors(Replay(s, ops))
    decreases |ops|
  {
    if ops != [] {
      ReplayKeepsNoNullEditors(Apply(s, ops[0]), ops[1..]);
    }
  }

  /** The state a sequence of setter calls builds up records exactly the
      latest override per field: the decorator's precedence rule. */
  lemma {:induction false} LatestWriteWins(ops: seq<Setter>, f: Field)
    ensures Slot(Replay(Empty, ops), f) == LatestOverride(ops, f)
    decreases |ops|
  {
    if ops != [] {
      var init, last := ops[..|ops| - 1], ops[|ops| - 1];
      assert ops == init + [last];
      ReplayAppend(Empty, init, last);
      LatestWriteWins(init, f);
    }
  }

  /** LatestOverride picks the last call that targets `f`, whatever came before it. */
  lemma {:induction false} LatestOverrideIsLastCall(ops: seq<Setter>, f: Field, i: nat)
    requires i < |ops| && ops[i].Target() == f
    requires forall j | i < j < |ops| :: ops[j].Target() != f
    ensures LatestOverride(ops, f) == ops[i].Written()
    decreases |ops|
  {
    if i < |ops| - 1 {
      LatestOverrideIsLastCall(ops[..|ops| - 1], f, i);
    }
  }

  /** With no call that targets `f`, no override is in force for `f`. */
  lemma {:induction false} LatestOverrideUntouched(ops: seq<Setter>, f: Field)
    requires forall j | 0 <= j < |ops| :: ops[j].Target() != f
    ensures LatestOverride(ops, f) == None
    decreases |ops|
  {
    if ops != [] {
      LatestOverrideUntouched(ops[..|ops| - 1], f);
    }
  }

  /** Override wins: once the latest call for `f` set a value, every query
      about `f` answers that value, whatever the wrapped descriptor says. */
  lemma OverrideWins(ops: seq<Setter>, baseValue: Value, f: Field)
    requires LatestOverride(ops, f).Some?
    ensures Effective(Replay(Empty, ops), baseValue, f) == LatestOverride(ops, f).value
  {
    LatestWriteWins(ops, f);
  }

  /** Otherwise delegate: with no call for `f`, or an editor cleared by its
      latest call, a query about `f` answers the wrapped descriptor's value. */
  lemma OtherwiseDelegate(ops: seq<Setter>, baseValue: Value, f: Field)
    requires LatestOverride(ops, f) == None
    ensures Effective(Replay(Empty, ops), baseValue, f) == baseValue
  {
    LatestWriteWins(ops, f);
  }
}
