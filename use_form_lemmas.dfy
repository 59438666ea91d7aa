/** What the useForm reducer, initialisation, validation and error reporting
    promise, proved about the specifications of module UseForm. */
module UseFormLemmas {
  import opened JsValues
  import opened UseForm

  // ---------------------------------------------------------------------------
  // CHANGE

  /** CHANGE without a callback, or with one whose result is falsy: the field
      takes the normalised value, a tracked field gets `error := false`, the
      message and the record's other keys stay, and no other field changes. */
  lemma ChangeFallback(s: FormState, field: string, raw: Value, cb: Option<Handler>, reg: Registry)
    requires field in s
    requires !Truthy(CallbackResult(s, raw, cb))
    ensures var r := Reduce(s, Change(field, raw, cb), reg);
      && r.Ok? && r.state.Keys == s.Keys
      && r.state[field].value == EventValue(raw)
      && r.state[field].error == (if s[field].Tracked() then Some(false) else None)
      && r.state[field].errorMessage == s[field].errorMessage
      && r.state[field].keys == s[field].keys
      && (forall k :: k in s && k != field ==> r.state[k] == s[k])
  {
  }

  /** The normalisation of line 71: a value with a truthy `target` stores its
      `target.value`, any other value (a plain object without `target`
      included) is stored whole; the two objects of the hook's tests follow. */
  lemma NormalisedValues(v: Value)
    ensures Truthy(Prop(v, "target")) ==> EventValue(v) == Prop(Prop(v, "target"), "value")
    ensures IsObject(v) && !Truthy(Prop(v, "target")) ==> EventValue(v) == v
    ensures EventValue(Obj(map["prop1" := Str("somerandomstuff"), "prop2" := Str("good stuff")]))
         == Obj(map["prop1" := Str("somerandomstuff"), "prop2" := Str("good stuff")])
    ensures EventValue(Obj(map["target" := Obj(map["value" := v])])) == v
    ensures !IsObject(v) ==> EventValue(v) == v
  {
  }

  /** CHANGE whose callback returns a truthy non-object: the record becomes
      exactly `{value, error: false, errorMessage: registry}`, dropping its
      other keys (an untracked field becomes tracked); nothing else changes. */
  lemma ChangeScalar(s: FormState, field: string, raw: Value, cb: Option<Handler>, reg: Registry)
    requires Truthy(CallbackResult(s, raw, cb)) && !IsObject(CallbackResult(s, raw, cb))
    ensures var r := Reduce(s, Change(field, raw, cb), reg);
      && r.Ok? && r.state.Keys == s.Keys + {field}
      && r.state[field].value == CallbackResult(s, raw, cb)
      && r.state[field].error == Some(false)
      && r.state[field].errorMessage == RegistryMessage(reg, field)
      && r.state[field].keys == {}
      && (forall k :: k in s && k != field ==> r.state[k] == s[k])
  {
  }

  /** CHANGE whose callback returns an object: every key of it naming an
      existing field sets that field's value and registry message, and clears
      `error` only where the record has one; unknown keys are ignored and the
      fields it does not name are unchanged. */
  lemma ChangeWithPatch(s: FormState, field: string, raw: Value, cb: Option<Handler>, reg: Registry)
    requires IsObject(CallbackResult(s, raw, cb))
    ensures var patch := CallbackResult(s, raw, cb).props;
      var r := Reduce(s, Change(field, raw, cb), reg);
      && r.Ok? && r.state.Keys == s.Keys
      && (forall k :: k in s && k in patch ==>
            && r.state[k].value == patch[k]
            && r.state[k].errorMessage == RegistryMessage(reg, k)
            && r.state[k].error == (if s[k].Tracked() then Some(false) else None)
            && r.state[k].keys == s[k].keys)
      && (forall k :: k in s && k !in patch ==> r.state[k] == s[k])
  {
  }

  /** A field that is not in the state is not touched by a patch that names it:
      it does not appear either. */
  lemma PatchIgnoresUnknownKeys(s: FormState, patch: map<string, Value>, reg: Registry, k: string)
    requires k in patch && k !in s
    ensures k !in ChangePatch(s, patch, reg)
  {
  }

  /** The scalar branch drops the record's `checkFieldErrors` key, so afterwards
      validation passes the field whatever its checker would say. */
  lemma ScalarChangeBypassesChecker(s: FormState, field: string, raw: Value, cb: Option<Handler>,
                                    reg: Registry, defs: map<string, FieldDef>)
    requires Truthy(CallbackResult(s, raw, cb)) && !IsObject(CallbackResult(s, raw, cb))
    ensures var r := Reduce(s, Change(field, raw, cb), reg);
      r.Ok? && field in r.state && Check(r.state, field, defs, reg) == Pass
  {
  }

  // ---------------------------------------------------------------------------
  // ERROR, REPLACE, other types

  /** ERROR writes the payload's flag and message on the target and nothing else. */
  lemma ErrorSetsFlags(s: FormState, field: string, isError: bool, msg: Option<string>, reg: Registry)
    requires field in s
    ensures var r := Reduce(s, Error(field, isError, msg), reg);
      && r.Ok? && r.state.Keys == s.Keys
      && r.state[field].error == Some(isError)
      && r.state[field].errorMessage == msg
      && r.state[field].value == s[field].value
      && r.state[field].keys == s[field].keys
      && (forall k :: k in s && k != field ==> r.state[k] == s[k])
  {
  }

  /** REPLACE with an object sets only the values of the fields it names that
      exist; flags, messages and other keys stay and no field is added. */
  lemma ReplaceSetsValues(s: FormState, values: map<string, Value>, reg: Registry)
    ensures var r := Reduce(s, Replace(Obj(values)), reg);
      && r.Ok? && r.state.Keys == s.Keys
      && (forall k :: k in s && k in values ==> r.state[k] == s[k].(value := values[k]))
      && (forall k :: k in s && k !in values ==> r.state[k] == s[k])
  {
  }

  /** REPLACE with anything but an object, and an action of unknown type,
      leave the state as it is. */
  lemma NoOpActions(s: FormState, payload: Value, kind: string, reg: Registry)
    requires !IsObject(payload)
    ensures Reduce(s, Replace(payload), reg) == Ok(s)
    ensures Reduce(s, Unknown(kind), reg) == Ok(s)
  {
  }

  /** Replacing twice with the same payload is replacing once. */
  lemma {:induction false} ReplaceIdempotent(s: FormState, values: map<string, Value>)
    ensures Replaced(Replaced(s, values), values) == Replaced(s, values)
  {
    var once := Replaced(s, values);
    var twice := Replaced(once, values);
    assert twice.Keys == once.Keys;
    forall k | k in twice ensures twice[k] == once[k] {
    }
  }

  /** Replacing with the state's own values changes nothing. */
  lemma ReplaceWithOwnValues(s: FormState)
    ensures Replaced(s, map k | k in s :: s[k].value) == s
  {
    var r := Replaced(s, map k | k in s :: s[k].value);
    assert r.Keys == s.Keys;
  }

  // ---------------------------------------------------------------------------
  // Sequences of actions

  /** Dispatching only actions that name existing fields never throws, keeps
      the set of fields, and never untracks a tracked field. */
  lemma {:induction false} RunKeepsFields(s: FormState, actions: seq<Action>, reg: Registry)
    requires forall i :: 0 <= i < |actions| ==> Targets(actions[i], s.Keys)
    ensures Run(s, actions, reg).Ok?
    ensures Run(s, actions, reg).state.Keys == s.Keys
    ensures forall k :: k in s && s[k].Tracked() ==> Run(s, actions, reg).state[k].Tracked()
  {
    if |actions| > 0 {
      var next := Reduce(s, actions[0], reg).state;
      assert forall i :: 0 <= i < |actions[1..]| ==> actions[1..][i] == actions[i + 1];
      RunKeepsFields(next, actions[1..], reg);
    }
  }

  /** An ERROR followed by a plain change of the same field: the change clears
      the flag but keeps the message the ERROR wrote. */
  lemma {:induction false} ChangeAfterError(s: FormState, field: string, msg: Option<string>, raw: Value, reg: Registry)
    requires field in s
    ensures var r := Run(s, [Error(field, true, msg), Change(field, raw, None)], reg);
      && r.Ok? && r.state.Keys == s.Keys
      && r.state[field].error == Some(false)
      && r.state[field].errorMessage == msg
      && r.state[field].value == EventValue(raw)
  {
    var afterError := SetError(s, field, true, msg);
    assert Reduce(s, Error(field, true, msg), reg) == Ok(afterError);
    var actions := [Error(field, true, msg), Change(field, raw, None)];
    assert actions[1..] == [Change(field, raw, None)];
    assert Run(s, actions, reg) == Run(afterError, [Change(field, raw, None)], reg);
    ChangeFallback(afterError, field, raw, None, reg);
    var afterChange := Reduce(afterError, Change(field, raw, None), reg);
    assert afterChange.Ok? && afterChange.state.Keys == s.Keys;
    assert [Change(field, raw, None)][1..] == [];
    assert Run(afterError, [Change(field, raw, None)], reg) == Run(afterChange.state, [], reg) == afterChange;
  }

  // ---------------------------------------------------------------------------
  // Initialisation

  /** The initial state has exactly the definition keys, each with its value;
      a field is tracked iff its definition has `error`; the registry has an
      entry exactly for the truthy messages. */
  lemma InitialValues(defs: map<string, FieldDef>)
    ensures InitialState(defs).Keys == defs.Keys
    ensures forall k :: k in defs ==> InitialState(defs)[k].value == defs[k].value
    ensures forall k :: k in defs ==> (InitialState(defs)[k].Tracked() <==> defs[k].error.Some?)
    ensures forall k :: k in defs ==> InitialState(defs)[k].errorMessage == defs[k].errorMessage
    ensures forall k :: k in DefaultMessages(defs) <==> k in defs && HasMessage(defs[k])
    ensures forall k :: k in DefaultMessages(defs) ==> Some(DefaultMessages(defs)[k]) == defs[k].errorMessage
  {
  }

  // ---------------------------------------------------------------------------
  // Validation

  /** Untracked fields are never flagged, whatever their value. */
  lemma UntrackedNeverFlagged(s: FormState, defs: map<string, FieldDef>, reg: Registry, k: string)
    requires k in s && !s[k].Tracked()
    ensures Check(s, k, defs, reg) == Pass
    ensures Validated(s, defs, reg)[k] == s[k]
  {
  }

  /** A tracked field with a falsy value or a set error is flagged with the
      registry message, and validation fails. */
  lemma EmptyOrErroredFails(s: FormState, defs: map<string, FieldDef>, reg: Registry, k: string)
    requires k in s && s[k].Tracked()
    requires !Truthy(s[k].value) || s[k].error == Some(true)
    ensures Validated(s, defs, reg)[k] == s[k].(error := Some(true), errorMessage := RegistryMessage(reg, k))
    ensures !AllPass(s, defs, reg)
  {
  }

  /** Otherwise a truthy `checkFieldErrors` result flags the field, with the
      result as message when it is a string and the registry message if not. */
  lemma CheckerFlags(s: FormState, defs: map<string, FieldDef>, reg: Registry, k: string)
    requires k in s && s[k].Tracked() && Truthy(s[k].value) && s[k].error != Some(true)
    requires CheckerKey in s[k].keys && k in defs && defs[k].checkFieldErrors.Some?
    ensures var response := defs[k].checkFieldErrors.value(s[k].value, s);
      && (Truthy(response) <==> Check(s, k, defs, reg).Flag?)
      && (Truthy(response) ==> Validated(s, defs, reg)[k].error == Some(true))
      && (response.Str? && response.s != "" ==> Validated(s, defs, reg)[k].errorMessage == Some(response.s))
      && (Truthy(response) && !response.Str? ==> Validated(s, defs, reg)[k].errorMessage == RegistryMessage(reg, k))
      && (!Truthy(response) ==> Validated(s, defs, reg)[k] == s[k])
  {
  }

  /** Validation changes only the flag and message of flagged fields: every
      flagged field ends with `error == true`, every other field is as it was,
      and a form that passes is left unchanged. */
  lemma {:induction false} ValidationOutcome(s: FormState, defs: map<string, FieldDef>, reg: Registry)
    ensures Validated(s, defs, reg).Keys == s.Keys
    ensures forall k :: k in s ==> Validated(s, defs, reg)[k].value == s[k].value
    ensures forall k :: k in s && Check(s, k, defs, reg).Flag? ==> Validated(s, defs, reg)[k].error == Some(true)
    ensures forall k :: k in s && Check(s, k, defs, reg).Pass? ==> Validated(s, defs, reg)[k] == s[k]
    ensures AllPass(s, defs, reg) ==> Validated(s, defs, reg) == s
  {
    var v := Validated(s, defs, reg);
    if AllPass(s, defs, reg) {
      forall k | k in s ensures v[k] == s[k] {
        assert Check(s, k, defs, reg).Pass?;
      }
    }
  }

  /** The scenario of an untracked empty `name` beside a tracked empty `email`
      with message "required": validation fails, flags `email` with "required"
      and leaves `name` untracked. */
  lemma NameEmailScenario()
    ensures var defs := map[
          "name" := FieldDef(Str(""), None, None, None, None, None, false),
          "email" := FieldDef(Str(""), Some(false), Some("required"), None, None, None, false)];
      var s := InitialState(defs);
      var reg := DefaultMessages(defs);
      && !AllPass(s, defs, reg)
      && Validated(s, defs, reg)["email"].error == Some(true)
      && Validated(s, defs, reg)["email"].errorMessage == Some("required")
      && Validated(s, defs, reg)["name"].error == None
  {
    var defs := map[
          "name" := FieldDef(Str(""), None, None, None, None, None, false),
          "email" := FieldDef(Str(""), Some(false), Some("required"), None, None, None, false)];
    var s := InitialState(defs);
    var reg := DefaultMessages(defs);
    assert "email" in reg && reg["email"] == "required";
    EmptyOrErroredFails(s, defs, reg, "email");
    UntrackedNeverFlagged(s, defs, reg, "name");
  }

  // ---------------------------------------------------------------------------
  // handleErrors

  /** Every reported field of the state gets `error := true` and the reported
      message, or keeps its previous message when the reported one is empty;
      unreported fields and unknown keys change nothing. */
  lemma ReportedErrors(s: FormState, report: map<string, string>)
    ensures ErrorsReported(s, report).Keys == s.Keys
    ensures forall k :: k in s && k in report ==>
      && ErrorsReported(s, report)[k].error == Some(true)
      && ErrorsReported(s, report)[k].value == s[k].value
      && ErrorsReported(s, report)[k].errorMessage == (if report[k] != "" then Some(report[k]) else s[k].errorMessage)
      && ErrorsReported(s, report)[k].keys == s[k].keys
    ensures forall k :: k in s && k !in report ==> ErrorsReported(s, report)[k] == s[k]
  {
  }
}
