/** One instance of the useForm hook (src/hooks/useForm.ts): the reducer state,
    the registry of default messages, the per-field change and blur handlers
    with their shared debouncer, validation, error reporting and bulk replace.
    Every state change goes through `Dispatch`, i.e. through the reducer. */
module UseFormHook {
  import opened JsValues
  import opened UseForm

  datatype HandlerKind = ChangeHandler | BlurHandler

  /** The arguments of a debounced handler call, waiting for the quiet period. */
  datatype Call = Call(field: string, event: Value, callback: Option<Handler>)

  /** The callback a handler passes with its CHANGE action: `onChange` for the
      change handlers, `onBlur` for the blur handlers. */
  function HandlerCallback(d: FieldDef, kind: HandlerKind): Option<Handler> {
    match kind
    case ChangeHandler => d.onChange
    case BlurHandler => d.onBlur
  }

  class Form {
    /** `args.fields` */
    const defs: map<string, FieldDef>
    /** `errorMessages` */
    const registry: Registry
    /** The reducer state. */
    var state: FormState
    /** The single trailing call of the debouncer that every handler shares. */
    var pending: Option<Call>

    ghost predicate Valid()
      reads this
    {
      && state.Keys == defs.Keys
      && (pending.Some? ==> pending.value.field in defs)
    }

    /** The first render: `getInitValues()` feeds `useReducer`. */
    constructor (fields: map<string, FieldDef>)
      ensures Valid()
      ensures defs == fields && state == InitialState(fields) && registry == DefaultMessages(fields)
      ensures pending == None
    {
      var s, reg := GetInitValues(fields);
      defs := fields;
      registry := reg;
      state := s;
      pending := None;
    }

    /** `dispatch`: reduce the action on the current state. */
    method Dispatch(a: Action)
      requires Valid() && Targets(a, state.Keys)
      modifies this`state
      ensures Valid()
      ensures Reduce(old(state), a, registry) == Ok(state)
    {
      var r := Reducer(state, a, registry);
      state := r.state;
    }

    /** `handlers[field](e)` and `blurs[field](e)` (lines 157-180, 217-240): an
        immediate CHANGE, or, for a `withoutInputValue` field, a call to the
        shared debouncer that replaces whatever call was waiting. */
    method Handle(field: string, e: Value, kind: HandlerKind)
      requires Valid() && field in defs
      modifies this
      ensures Valid()
      ensures !defs[field].withoutInputValue ==>
        && pending == old(pending)
        && Reduce(old(state), Change(field, e, HandlerCallback(defs[field], kind)), registry) == Ok(state)
      ensures defs[field].withoutInputValue ==>
        state == old(state) && pending == Some(Call(field, e, HandlerCallback(defs[field], kind)))
    {
      var cb := HandlerCallback(defs[field], kind);
      if !defs[field].withoutInputValue {
        Dispatch(Change(field, e, cb));
      } else {
        pending := Some(Call(field, e, cb));
      }
    }

    /** The debounce delay elapses: only the last waiting call is dispatched. */
    method Flush()
      requires Valid()
      modifies this
      ensures Valid() && pending == None
      ensures old(pending).None? ==> state == old(state)
      ensures old(pending).Some? ==>
        var c := old(pending).value;
        Reduce(old(state), Change(c.field, c.event, c.callback), registry) == Ok(state)
    {
      if pending.Some? {
        var c := pending.value;
        Dispatch(Change(c.field, c.event, c.callback));
      }
      pending := None;
    }

    /** `isValidForm()` (lines 182-215): decides every field on the current
        state, dispatches an ERROR for each failing one and returns whether none
        failed. */
    method ValidateForm() returns (valid: bool)
      requires Valid()
      modifies this
      ensures Valid() && pending == old(pending)
      ensures state == Validated(old(state), defs, registry)
      ensures valid <==> AllPass(old(state), defs, registry)
    {
      var snapshot := state;
      valid := true;
      var todo := snapshot.Keys;
      while todo != {}
        invariant Valid() && pending == old(pending)
        invariant todo <= snapshot.Keys
        invariant state.Keys == snapshot.Keys
        invariant forall k :: k in todo ==> state[k] == snapshot[k]
        invariant forall k :: k in snapshot && k !in todo ==> state[k] == Validated(snapshot, defs, registry)[k]
        invariant valid <==> forall k :: k in snapshot && k !in todo ==> Check(snapshot, k, defs, registry).Pass?
        decreases todo
      {
        var field :| field in todo;
        var verdict := Check(snapshot, field, defs, registry);
        if verdict.Flag? {
          Dispatch(Error(field, true, verdict.message));
          valid := false;
        }
        todo := todo - {field};
      }
      assert state == Validated(snapshot, defs, registry);
    }

    /** `handleErrors(...)` (lines 248-266), given what `onError` returned:
        `None` when there is no `onError` or it returned nothing. */
    method HandleErrors(report: Option<map<string, string>>)
      requires Valid()
      modifies this
      ensures Valid() && pending == old(pending)
      ensures report.None? ==> state == old(state)
      ensures report.Some? ==> state == ErrorsReported(old(state), report.value)
    {
      if report.None? {
        return;
      }
      var newErrors := report.value;
      var snapshot := state;
      var todo := newErrors.Keys;
      while todo != {}
        invariant Valid() && pending == old(pending)
        invariant todo <= newErrors.Keys
        invariant state.Keys == snapshot.Keys
        invariant forall k :: k in snapshot ==>
          state[k] == if k in todo then snapshot[k] else ErrorsReported(snapshot, newErrors)[k]
        decreases todo
      {
        var fieldWithError :| fieldWithError in todo;
        if fieldWithError in snapshot {
          var message := if newErrors[fieldWithError] != "" then Some(newErrors[fieldWithError])
                         else snapshot[fieldWithError].errorMessage;
          Dispatch(Error(fieldWithError, true, message));
        }
        todo := todo - {fieldWithError};
      }
      assert state == ErrorsReported(snapshot, newErrors);
    }

    /** `replaceForm(copyState)` (lines 268-270). */
    method ReplaceForm(copyState: Value)
      requires Valid()
      modifies this
      ensures Valid() && pending == old(pending)
      ensures Reduce(old(state), Replace(copyState), registry) == Ok(state)
    {
      Dispatch(Replace(copyState));
    }
  }

  /** Two quick calls to the handler of a `withoutInputValue` field, then the
      quiet period: nothing lands before it, and only the later value after. */
  method DebounceScenario()
  {
    var defs := map["x" := FieldDef(Str(""), None, None, None, None, None, true)];
    var form := new Form(defs);
    form.Handle("x", Str("a"), ChangeHandler);
    form.Handle("x", Str("ab"), ChangeHandler);
    assert form.state["x"].value == Str("");
    form.Flush();
    assert form.state["x"].value == Str("ab");
  }
}
