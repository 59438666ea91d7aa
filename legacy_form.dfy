/** The older form hook of src/hooks/index.ts: the same reducer shape with
    CHANGE and ERROR only, no error messages, and a `validator` that exempts a
    failing field instead of flagging a passing one. */
module LegacyForm {
  import opened JsValues

  /** `validator`: called with the field's value. */
  type Validator = Value -> bool

  /** `onChange`/`onBlur`: called with the extracted value and the state. */
  type Callback = (Value, map<string, Field>) -> Value

  /** A field record; it carries its own `validator`, which validation reads
      from the record. */
  datatype Field = Field(value: Value, error: Option<bool>, validator: Option<Validator>)
  {
    predicate Tracked() {
      error.Some?
    }
  }

  type State = map<string, Field>

  datatype FieldDef = FieldDef(
    value: Value,
    error: Option<bool>,
    onChange: Option<Callback>,
    onBlur: Option<Callback>,
    withoutInputValue: bool,
    validator: Option<Validator>)

  datatype Action =
    | Change(field: string, value: Value, onChange: Option<Callback>)
    | Error(field: string, isError: bool)
    | Unknown(kind: string)

  /** The next state, or the TypeError of reading a missing record. */
  datatype Step = Ok(state: State) | TypeError

  predicate Targets(a: Action, fields: set<string>) {
    match a
    case Change(f, _, _) => f in fields
    case Error(f, _) => f in fields
    case _ => true
  }

  /** `typeof e === 'object' ? e.target.value : e` (lines 119 and 161);
      `None` where the property read throws (`null`, or an object without a
      `target` object). */
  function HandlerValue(e: Value): (r: Option<Value>)
    ensures IsObject(e) && !Prop(e, "target").Undefined? && !Prop(e, "target").Null? ==> r == Some(Prop(Prop(e, "target"), "value"))
    ensures !IsObject(e) && !e.Null? ==> r == Some(e)
    ensures r.None? <==> e.Null? || (IsObject(e) && (Prop(e, "target").Undefined? || Prop(e, "target").Null?))
  {
    match e
    case Null => None
    case Obj(_) =>
      var target := Prop(e, "target");
      if target.Undefined? || target.Null? then None else Some(Prop(target, "value"))
    case _ => Some(e)
  }

  /** `{...f, value: v}`, plus `error: false` when the record is tracked. */
  function Cleared(f: Field, v: Value): Field {
    f.(value := v, error := if f.Tracked() then Some(false) else f.error)
  }

  function ChangePatch(s: State, patch: map<string, Value>): State {
    map k | k in s :: if k in patch then Cleared(s[k], patch[k]) else s[k]
  }

  function CallbackResult(s: State, v: Value, cb: Option<Callback>): Value {
    if cb.Some? then cb.value(v, s) else Undefined
  }

  /** The reducer (src/hooks/index.ts lines 58-87). */
  function Reduce(s: State, a: Action): (r: Step)
    ensures Targets(a, s.Keys) ==> r.Ok? && r.state.Keys == s.Keys
    ensures r.Ok? ==> s.Keys <= r.state.Keys
    ensures r.Ok? ==> forall k :: k in s && s[k].Tracked() ==> r.state[k].Tracked()
  {
    match a
    case Change(field, v, cb) =>
      var result := CallbackResult(s, v, cb);
      if Truthy(result) && !IsObject(result) then
        Ok(s[field := Field(result, Some(false), None)])
      else if IsObject(result) then
        Ok(ChangePatch(s, result.props))
      else if field in s then
        Ok(s[field := Cleared(s[field], v)])
      else
        TypeError
    case Error(field, isError) =>
      var f := if field in s then s[field] else Field(Undefined, None, None);
      Ok(s[field := f.(error := Some(isError))])
    case Unknown(_) =>
      Ok(s)
  }

  /** The `for (let prop in modifiedState)` loop of lines 66-75. */
  method PatchFields(s: State, patch: map<string, Value>) returns (r: State)
    ensures r == ChangePatch(s, patch)
  {
    var modifiedFields: State := map[];
    var todo := patch.Keys;
    while todo != {}
      invariant todo <= patch.Keys
      invariant modifiedFields.Keys == (patch.Keys - todo) * s.Keys
      invariant forall k :: k in modifiedFields ==> modifiedFields[k] == Cleared(s[k], patch[k])
      decreases todo
    {
      var prop :| prop in todo;
      if prop in s {
        modifiedFields := modifiedFields[prop := Cleared(s[prop], patch[prop])];
      }
      todo := todo - {prop};
    }
    r := s + modifiedFields;
    assert r.Keys == ChangePatch(s, patch).Keys;
  }

  /** The reducer as the hook runs it: the patch branch runs its loop, every
      other branch is the expression of `Reduce`. */
  method Reducer(s: State, a: Action) returns (r: Step)
    ensures r == Reduce(s, a)
  {
    if a.Change? && IsObject(CallbackResult(s, a.value, a.onChange)) {
      var patched := PatchFields(s, CallbackResult(s, a.value, a.onChange).props);
      r := Ok(patched);
    } else {
      r := Reduce(s, a);
    }
  }

  /** `getInitValues` (lines 89-100): `{...args[k], value: args[k].value}`. */
  function InitialState(defs: map<string, FieldDef>): (s: State)
    ensures s.Keys == defs.Keys
    ensures forall k :: k in defs ==>
      s[k].value == defs[k].value && s[k].error == defs[k].error && s[k].validator == defs[k].validator
  {
    map k | k in defs :: Field(defs[k].value, defs[k].error, defs[k].validator)
  }

  /** The failure test of line 144: tracked, empty or already in error, and
      not exempted by a truthy `validator`. */
  predicate Flagged(s: State, k: string)
    requires k in s
  {
    && s[k].Tracked()
    && (!Truthy(s[k].value) || s[k].error == Some(true))
    && !(s[k].validator.Some? && s[k].validator.value(s[k].value))
  }

  function Validated(s: State): State {
    map k | k in s :: if Flagged(s, k) then s[k].(error := Some(true)) else s[k]
  }

  predicate NoneFlagged(s: State) {
    forall k :: k in s ==> !Flagged(s, k)
  }

  // ---------------------------------------------------------------------------
  // Properties

  /** CHANGE whose callback returns a truthy non-object: the record becomes
      exactly `{value, error: false}`, losing its validator; nothing else changes. */
  lemma ChangeScalar(s: State, field: string, v: Value, cb: Option<Callback>)
    requires Truthy(CallbackResult(s, v, cb)) && !IsObject(CallbackResult(s, v, cb))
    ensures var r := Reduce(s, Change(field, v, cb));
      && r.Ok? && r.state.Keys == s.Keys + {field}
      && r.state[field] == Field(CallbackResult(s, v, cb), Some(false), None)
      && (forall k :: k in s && k != field ==> r.state[k] == s[k])
  {
  }

  /** CHANGE whose callback returns an object: existing named fields take the
      new value and clear `error` only where they have it, keeping their
      `validator`; the rest is unchanged. */
  lemma ChangeWithPatch(s: State, field: string, v: Value, cb: Option<Callback>)
    requires IsObject(CallbackResult(s, v, cb))
    ensures var patch := CallbackResult(s, v, cb).props;
      var r := Reduce(s, Change(field, v, cb));
      && r.Ok? && r.state.Keys == s.Keys
      && (forall k :: k in s && k in patch ==>
            && r.state[k].value == patch[k]
            && r.state[k].error == (if s[k].Tracked() then Some(false) else None)
            && r.state[k].validator == s[k].validator)
      && (forall k :: k in s && k !in patch ==> r.state[k] == s[k])
  {
  }

  /** CHANGE without a usable callback result: only the target's value, and
      its `error` when tracked, change. */
  lemma ChangeFallback(s: State, field: string, v: Value, cb: Option<Callback>)
    requires field in s && !Truthy(CallbackResult(s, v, cb))
    ensures var r := Reduce(s, Change(field, v, cb));
      && r.Ok? && r.state.Keys == s.Keys
      && r.state[field] == s[field].(value := v, error := if s[field].Tracked() then Some(false) else None)
      && (forall k :: k in s && k != field ==> r.state[k] == s[k])
  {
  }

  /** ERROR sets only the target's `error`; other types change nothing. */
  lemma ErrorAndUnknown(s: State, field: string, isError: bool, kind: string)
    requires field in s
    ensures var r := Reduce(s, Error(field, isError));
      && r.Ok? && r.state.Keys == s.Keys
      && r.state[field] == s[field].(error := Some(isError))
      && (forall k :: k in s && k != field ==> r.state[k] == s[k])
    ensures Reduce(s, Unknown(kind)) == Ok(s)
  {
  }

  /** A truthy validator exempts a field: it is never flagged, whatever its
      value or flag, and validation leaves it alone. */
  lemma ValidatorExempts(s: State, k: string)
    requires k in s && s[k].validator.Some? && s[k].validator.value(s[k].value)
    ensures !Flagged(s, k) && Validated(s)[k] == s[k]
  {
  }

  /** Validation only sets `error := true` on flagged fields, and a passing
      form is left unchanged. */
  lemma {:induction false} ValidationOutcome(s: State)
    ensures Validated(s).Keys == s.Keys
    ensures forall k :: k in s && Flagged(s, k) ==> Validated(s)[k] == s[k].(error := Some(true))
    ensures forall k :: k in s && !Flagged(s, k) ==> Validated(s)[k] == s[k]
    ensures NoneFlagged(s) ==> Validated(s) == s
  {
    if NoneFlagged(s) {
      var v := Validated(s);
      forall k | k in s ensures v[k] == s[k] {
        assert !Flagged(s, k);
      }
    }
  }

  /** The hook instance of src/hooks/index.ts. */
  class Form {
    const defs: map<string, FieldDef>
    var state: State
    /** The single trailing call of the shared debouncer. */
    var pending: Option<(string, Value, Option<Callback>)>

    ghost predicate Valid()
      reads this
    {
      && state.Keys == defs.Keys
      && (pending.Some? ==> pending.value.0 in defs)
    }

    constructor (args: map<string, FieldDef>)
      ensures Valid() && defs == args && state == InitialState(args) && pending == None
    {
      defs := args;
      state := InitialState(args);
      pending := None;
    }

    method Dispatch(a: Action)
      requires Valid() && Targets(a, state.Keys)
      modifies this`state
      ensures Valid()
      ensures Reduce(old(state), a) == Ok(state)
    {
      var r := Reducer(state, a);
      state := r.state;
    }

    /** `handlers[field](e)` / `blurs[field](e)` (lines 113-137, 155-179): the
        value is extracted first; `threw` when that extraction throws. */
    method Handle(field: string, e: Value, blur: bool) returns (threw: bool)
      requires Valid() && field in defs
      modifies this
      ensures Valid()
      ensures threw <==> HandlerValue(e).None?
      ensures threw ==> state == old(state) && pending == old(pending)
      ensures !threw && !defs[field].withoutInputValue ==>
        && pending == old(pending)
        && Reduce(old(state), Change(field, HandlerValue(e).value,
                                     if blur then defs[field].onBlur else defs[field].onChange)) == Ok(state)
      ensures !threw && defs[field].withoutInputValue ==>
        && state == old(state)
        && pending == Some((field, HandlerValue(e).value, if blur then defs[field].onBlur else defs[field].onChange))
    {
      var extracted := HandlerValue(e);
      if extracted.None? {
        return true;
      }
      threw := false;
      var cb := if blur then defs[field].onBlur else defs[field].onChange;
      if !defs[field].withoutInputValue {
        Dispatch(Change(field, extracted.value, cb));
      } else {
        pending := Some((field, extracted.value, cb));
      }
    }

    /** The debounce delay elapses: the last waiting call is dispatched. */
    method Flush()
      requires Valid()
      modifies this
      ensures Valid() && pending == None
      ensures old(pending).None? ==> state == old(state)
      ensures old(pending).Some? ==>
        Reduce(old(state), Change(old(pending).value.0, old(pending).value.1, old(pending).value.2)) == Ok(state)
    {
      if pending.Some? {
        var (field, v, cb) := pending.value;
        Dispatch(Change(field, v, cb));
      }
      pending := None;
    }

    /** `isValidForm()` (lines 139-153). */
    method IsValidForm() returns (valid: bool)
      requires Valid()
      modifies this
      ensures Valid() && pending == old(pending)
      ensures state == Validated(old(state))
      ensures valid <==> NoneFlagged(old(state))
    {
      var snapshot := state;
      valid := true;
      var todo := snapshot.Keys;
      while todo != {}
        invariant Valid() && pending == old(pending)
        invariant todo <= snapshot.Keys
        invariant state.Keys == snapshot.Keys
        invariant forall k :: k in snapshot ==> state[k] == if k in todo then snapshot[k] else Validated(snapshot)[k]
        invariant valid <==> forall k :: k in snapshot && k !in todo ==> !Flagged(snapshot, k)
        decreases todo
      {
        var field :| field in todo;
        if Flagged(snapshot, field) {
          Dispatch(Error(field, true));
          valid := false;
        }
        todo := todo - {field};
      }
      assert state == Validated(snapshot);
    }
  }
}
