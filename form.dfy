/**
 * The form session (src/components/form.tsx): a store of value cells keyed by
 * field name, created lazily, and the submission that hands a snapshot of the
 * store to the registered submit handler.
 */
module Form {
  import opened Util

  /** One validation diagnostic. */
  datatype FormError = FormError(message: string)

  /** What `submit` hands to the submit handler: each field's current value, `undefined` as None. */
  type Snapshot<V> = map<string, Option<V>>

  /**
   * A field's value cell: a mutable slot whose write replaces the value.
   * A new cell holds `undefined`.
   */
  class Cell<V> {
    var value: Option<V>

    constructor ()
      ensures value == None
    {
      value := None;
    }

    /** `setValue(v)` */
    method Write(v: V)
      modifies this
      ensures value == Some(v)
    {
      value := Some(v);
    }
  }

  class FormManager<V> {
    /** `values`: field name to cell. */
    var values: map<string, Cell<V>>
    /** Whether a submit handler (`onSubmit`) is registered. */
    var onSubmit: bool

    /** Distinct names never share a cell, so writing one field's cell leaves every other field alone. */
    ghost predicate Valid()
      reads this
    {
      forall a, b :: a in values && b in values && a != b ==> values[a] != values[b]
    }

    /** The value every cell holds now. */
    ghost function Snapshot(): (s: Snapshot<V>)
      reads this, values.Values
    {
      map name | name in values :: values[name].value
    }

    /** `new FormManager()`: an empty store and no submit handler. */
    constructor ()
      ensures Valid()
      ensures values == map[] && !onSubmit
    {
      values := map[];
      onSubmit := false;
    }

    /** The `Form` effect that installs (or removes) the submit handler. */
    method SetOnSubmit(registered: bool)
      modifies this
      ensures onSubmit == registered && values == old(values)
    {
      onSubmit := registered;
    }

    /**
     * The get-or-create of `useFieldValue(name)`: the first access adds a cell
     * holding `undefined`; later ones return that same cell and change nothing.
     */
    method FieldValue(name: string) returns (cell: Cell<V>)
      requires Valid()
      modifies this
      ensures Valid() && onSubmit == old(onSubmit)
      ensures name in values && values[name] == cell
      ensures name in old(values) ==> cell == old(values)[name] && values == old(values)
      ensures name !in old(values) ==> fresh(cell) && cell.value == None && values == old(values)[name := cell]
    {
      if name in values {
        cell := values[name];
      } else {
        cell := new Cell();
        values := values[name := cell];
      }
    }

    /**
     * `submit()`: without a handler, nothing (None). With one, the single call
     * to it (Some). Its argument is a plain object literal, and assigning to it
     * under `__proto__` goes to the prototype setter instead of creating a key.
     * So its keys are the store's names except `__proto__`, each holding its
     * cell's current value, `undefined` included. Nothing is modified.
     */
    method Submit() returns (call: Option<Snapshot<V>>)
      ensures call.None? <==> !onSubmit
      ensures call.Some? ==> call.value.Keys == values.Keys - {ProtoKey}
      ensures call.Some? ==> forall name :: name in call.value ==> call.value[name] == values[name].value
      ensures call.Some? ==> call.value == Snapshot() - {ProtoKey}
    {
      if !onSubmit {
        return None;
      }
      var obj: Snapshot<V> := map[];
      var pending := values.Keys;
      while pending != {}
        invariant pending <= values.Keys
        invariant obj.Keys == values.Keys - pending - {ProtoKey}
        invariant forall name :: name in obj ==> obj[name] == values[name].value
        decreases pending
      {
        var name :| name in pending;
        if name != ProtoKey {
          obj := obj[name := values[name].value];
        }
        pending := pending - {name};
      }
      return Some(obj);
    }
  }

  /** The one name an assignment on a plain object does not turn into an own key. */
  const ProtoKey := "__proto__"

  const NotInsideFormMessage := "A field was rendered without encompassing <Form />. Please check your code."

  /** `useFormManager()`: the enclosing form's manager, or an error when there is none. */
  function UseFormManager<V>(context: FormManager?<V>): (r: Fallible<FormManager<V>>)
    ensures r.Threw? <==> context == null
    ensures r.Threw? ==> r.message == NotInsideFormMessage
    ensures r.Returned? ==> r.value == context
  {
    if context == null then Threw(NotInsideFormMessage)
    else var manager: FormManager<V> := context; Returned(manager)
  }
}
