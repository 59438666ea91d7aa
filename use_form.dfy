/** The form-state reducer of src/hooks/useForm.ts and the pure specifications
    of what its initialisation, validation and error reporting compute.

    A form state maps field names to field records. A record whose `error` key
    is present is "error-tracked": only such fields are validated, and only
    they get `error := false` when a change clears them. */
module UseForm {
  import opened JsValues

  /** The default error messages captured at initialisation (`errorMessages`). */
  type Registry = map<string, string>

  /** One field record. `error.Some?` means the record has an own `error` key;
      `keys` are its other own keys copied from the definition (`onChange`,
      `checkFieldErrors`, ...), which the validator looks at. */
  datatype Field = Field(value: Value, error: Option<bool>, errorMessage: Option<string>, keys: set<string>)
  {
    predicate Tracked() {
      error.Some?
    }
  }

  type FormState = map<string, Field>

  /** `onChange`/`onBlur`: called with the normalised value, the state before
      the change and the event (or `undefined`). */
  type Handler = (Value, FormState, Value) -> Value

  /** `checkFieldErrors`: called with the field's value and the whole state. */
  type Checker = (Value, FormState) -> Value

  /** A field definition as the caller passes it in `args.fields`. */
  datatype FieldDef = FieldDef(
    value: Value,
    error: Option<bool>,
    errorMessage: Option<string>,
    onChange: Option<Handler>,
    onBlur: Option<Handler>,
    checkFieldErrors: Option<Checker>,
    withoutInputValue: bool)

  const CheckerKey := "checkFieldErrors"

  /** The own keys of a definition besides `value`, `error` and `errorMessage`. */
  function OwnKeys(d: FieldDef): set<string> {
    (if d.onChange.Some? then {"onChange"} else {})
    + (if d.onBlur.Some? then {"onBlur"} else {})
    + (if d.checkFieldErrors.Some? then {CheckerKey} else {})
    + (if d.withoutInputValue then {"withoutInputValue"} else {})
  }

  /** The three action types the hook dispatches, plus any other type string. */
  datatype Action =
    | Change(field: string, value: Value, onChange: Option<Handler>)
    | Error(field: string, isError: bool, message: Option<string>)
    | Replace(payload: Value)
    | Unknown(kind: string)

  /** The reducer either returns the next state or throws: the CHANGE fallback
      reads `reducerState[action.field].hasOwnProperty`, a TypeError when the
      field is missing. */
  datatype Step = Ok(state: FormState) | TypeError

  /** The action names a field of `fields` (or names no field at all). */
  predicate Targets(a: Action, fields: set<string>) {
    match a
    case Change(f, _, _) => f in fields
    case Error(f, _, _) => f in fields
    case _ => true
  }

  /** `errorMessages[field]`: the registered default, or `undefined`. */
  function RegistryMessage(reg: Registry, field: string): Option<string> {
    if field in reg then Some(reg[field]) else None
  }

  /** `value?.target` is truthy: the dispatched value is an input event. */
  predicate IsEvent(raw: Value) {
    Truthy(Prop(raw, "target"))
  }

  /** The normalised value: `value.target?.value` for an event, else the value itself. */
  function EventValue(raw: Value): Value {
    if IsEvent(raw) then Prop(Prop(raw, "target"), "value") else raw
  }

  /** What the CHANGE callback returns (`undefined` when there is none). */
  function CallbackResult(s: FormState, raw: Value, cb: Option<Handler>): Value {
    if cb.Some? then cb.value(EventValue(raw), s, if IsEvent(raw) then raw else Undefined) else Undefined
  }

  /** `{...f, value: v}`, plus `error: false` when the record is tracked. */
  function Cleared(f: Field, v: Value): Field {
    f.(value := v, error := if f.Tracked() then Some(false) else f.error)
  }

  /** A field named by a callback's patch: cleared, with the registry message. */
  function Patched(f: Field, v: Value, msg: Option<string>): Field {
    Cleared(f, v).(errorMessage := msg)
  }

  /** `{...reducerState, ...modifiedFields}` after the patch loop. */
  function ChangePatch(s: FormState, patch: map<string, Value>, reg: Registry): FormState {
    map k | k in s :: if k in patch then Patched(s[k], patch[k], RegistryMessage(reg, k)) else s[k]
  }

  /** The state after REPLACE with an object payload. */
  function Replaced(s: FormState, values: map<string, Value>): FormState {
    map k | k in s :: if k in values then s[k].(value := values[k]) else s[k]
  }

  /** ERROR: `{...reducerState[field], error, errorMessage}`; a missing record spreads as `{}`. */
  function SetError(s: FormState, field: string, isError: bool, msg: Option<string>): FormState {
    var f := if field in s then s[field] else Field(Undefined, None, None, {});
    s[field := f.(error := Some(isError), errorMessage := msg)]
  }

  /** The reducer (src/hooks/useForm.ts lines 65-124). */
  function Reduce(s: FormState, a: Action, reg: Registry): (r: Step)
    ensures Targets(a, s.Keys) ==> r.Ok? && r.state.Keys == s.Keys
    ensures r.Ok? ==> s.Keys <= r.state.Keys
    ensures r.Ok? ==> forall k :: k in s && s[k].Tracked() ==> r.state[k].Tracked()
  {
    match a
    case Change(field, raw, cb) =>
      var result := CallbackResult(s, raw, cb);
      if Truthy(result) && !IsObject(result) then
        Ok(s[field := Field(result, Some(false), RegistryMessage(reg, field), {})])
      else if IsObject(result) then
        Ok(ChangePatch(s, result.props, reg))
      else if field in s then
        Ok(s[field := Cleared(s[field], EventValue(raw))])
      else
        TypeError
    case Error(field, isError, msg) =>
      Ok(SetError(s, field, isError, msg))
    case Replace(payload) =>
      if IsObject(payload) then Ok(Replaced(s, payload.props)) else Ok(s)
    case Unknown(_) =>
      Ok(s)
  }

  /** The patch loop of lines 78-87: walks the callback's keys, collects the
      rewritten records of the fields that exist, and spreads them over the state. */
  method PatchFields(s: FormState, patch: map<string, Value>, reg: Registry) returns (r: FormState)
    ensures r == ChangePatch(s, patch, reg)
  {
    var modifiedFields: FormState := map[];
    var todo := patch.Keys;
    while todo != {}
      invariant todo <= patch.Keys
      invariant modifiedFields.Keys == (patch.Keys - todo) * s.Keys
      invariant forall k :: k in modifiedFields ==> modifiedFields[k] == Patched(s[k], patch[k], RegistryMessage(reg, k))
      decreases todo
    {
      var prop :| prop in todo;
      if prop in s {
        modifiedFields := modifiedFields[prop := Patched(s[prop], patch[prop], RegistryMessage(reg, prop))];
      }
      todo := todo - {prop};
    }
    r := s + modifiedFields;
    assert r.Keys == ChangePatch(s, patch, reg).Keys;
  }

  /** The REPLACE loop of lines 108-116: copies a new value onto every field of
      the payload that the state already has. */
  method ReplaceValues(s: FormState, values: map<string, Value>) returns (r: FormState)
    ensures r == Replaced(s, values)
  {
    var newState := s;
    var todo := values.Keys;
    while todo != {}
      invariant todo <= values.Keys
      invariant newState.Keys == s.Keys
      invariant forall k :: k in s ==> newState[k] == if k in values && k !in todo then s[k].(value := values[k]) else s[k]
      decreases todo
    {
      var field :| field in todo;
      if field in s {
        newState := newState[field := s[field].(value := values[field])];
      }
      todo := todo - {field};
    }
    r := newState;
  }

  /** The reducer as the hook runs it: the patch and REPLACE branches run
      their loops, every other branch is the expression of `Reduce`. */
  method Reducer(s: FormState, a: Action, reg: Registry) returns (r: Step)
    ensures r == Reduce(s, a, reg)
  {
    if a.Change? && IsObject(CallbackResult(s, a.value, a.onChange)) {
      var patched := PatchFields(s, CallbackResult(s, a.value, a.onChange).props, reg);
      r := Ok(patched);
    } else if a.Replace? && IsObject(a.payload) {
      var replaced := ReplaceValues(s, a.payload.props);
      r := Ok(replaced);
    } else {
      r := Reduce(s, a, reg);
    }
  }

  /** A sequence of dispatches, each reduced on the state the previous one left. */
  function Run(s: FormState, actions: seq<Action>, reg: Registry): Step
    decreases |actions|
  {
    if |actions| == 0 then Ok(s)
    else match Reduce(s, actions[0], reg)
      case TypeError => TypeError
      case Ok(next) => Run(next, actions[1..], reg)
  }

  // ---------------------------------------------------------------------------
  // Initialisation (getInitValues, lines 126-144)

  /** The definition's `errorMessage` is truthy. */
  predicate HasMessage(d: FieldDef) {
    d.errorMessage.Some? && d.errorMessage.value != ""
  }

  /** `{...args.fields[k], value: args.fields[k].value}`. */
  function InitialField(d: FieldDef): Field {
    Field(d.value, d.error, d.errorMessage, OwnKeys(d))
  }

  function InitialState(defs: map<string, FieldDef>): FormState {
    map k | k in defs :: InitialField(defs[k])
  }

  function DefaultMessages(defs: map<string, FieldDef>): Registry {
    map k | k in defs && HasMessage(defs[k]) :: defs[k].errorMessage.value
  }

  /** The reduce over the definition keys: accumulates the state and fills
      the default-message registry in place. */
  method GetInitValues(defs: map<string, FieldDef>) returns (state: FormState, registry: Registry)
    ensures state == InitialState(defs)
    ensures registry == DefaultMessages(defs)
  {
    state, registry := map[], map[];
    var todo := defs.Keys;
    while todo != {}
      invariant todo <= defs.Keys
      invariant state.Keys == defs.Keys - todo
      invariant forall k :: k in state ==> state[k] == InitialField(defs[k])
      invariant registry.Keys == set k | k in defs.Keys - todo && HasMessage(defs[k])
      invariant forall k :: k in registry ==> registry[k] == defs[k].errorMessage.value
      decreases todo
    {
      var val :| val in todo;
      if HasMessage(defs[val]) {
        registry := registry[val := defs[val].errorMessage.value];
      }
      state := state[val := InitialField(defs[val])];
      todo := todo - {val};
    }
    assert registry.Keys == DefaultMessages(defs).Keys;
  }

  // ---------------------------------------------------------------------------
  // Validation (validateForm, lines 182-215)

  /** What validation decides about one field: leave it, or flag it with a message. */
  datatype Verdict = Pass | Flag(message: Option<string>)

  /** The decision for field `k`, taken on the snapshot `s`. The checker is
      looked up on the definition but consulted only when the record itself
      still has a `checkFieldErrors` key. */
  function Check(s: FormState, k: string, defs: map<string, FieldDef>, reg: Registry): Verdict
    requires k in s
  {
    var f := s[k];
    if f.Tracked() && (!Truthy(f.value) || f.error == Some(true)) then
      Flag(RegistryMessage(reg, k))
    else if f.Tracked() && CheckerKey in f.keys then
      var response :=
        if k in defs && defs[k].checkFieldErrors.Some? then defs[k].checkFieldErrors.value(f.value, s)
        else Undefined;
      if !Truthy(response) then Pass
      else if response.Str? then Flag(Some(response.s))
      else Flag(RegistryMessage(reg, k))
    else
      Pass
  }

  /** The state after every ERROR action validation dispatches has been reduced. */
  function Validated(s: FormState, defs: map<string, FieldDef>, reg: Registry): FormState {
    map k | k in s :: match Check(s, k, defs, reg)
      case Pass => s[k]
      case Flag(m) => s[k].(error := Some(true), errorMessage := m)
  }

  /** The verdict validation returns: no field was flagged. */
  predicate AllPass(s: FormState, defs: map<string, FieldDef>, reg: Registry) {
    forall k :: k in s ==> Check(s, k, defs, reg).Pass?
  }

  // ---------------------------------------------------------------------------
  // handleErrors (lines 248-266)

  /** The state after every ERROR action for the fields named by `onError`'s
      result: the new message, or the previous one when the returned one is "". */
  function ErrorsReported(s: FormState, report: map<string, string>): FormState {
    map k | k in s :: if k in report then
      s[k].(error := Some(true), errorMessage := if report[k] != "" then Some(report[k]) else s[k].errorMessage)
    else s[k]
  }
}
