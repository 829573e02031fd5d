/**
 * The field wrapper of `makeSimpleField` (src/components/Field.tsx): the
 * `onChange` it gives the wrapped input routes a Left to the field's shown
 * errors and writes only a Right into the field's cell of the form store.
 */
module Field {
  import opened Util
  import opened Form

  /** The calls the field's `onChange` makes, in the order it makes them. */
  datatype Effect<V> =
    | CallerOnChange(result: Either<seq<FormError>, V>)
    | SetErrors(errors: seq<FormError>)
    | SetValue(value: V)

  class SimpleField<V> {
    /** The field's `name` prop, the key of its cell. */
    const name: string
    /** The enclosing form's manager. */
    const manager: FormManager<V>
    /** The cell `useFieldValue(name)` gave the field. */
    const cell: Cell<V>
    /** Whether the caller passed its own `onChange`. */
    const hasOnChange: bool
    /** The errors the field shows. */
    var errors: seq<FormError>

    /** The field's cell is the store's cell for its name. */
    ghost predicate Valid()
      reads this, manager
    {
      manager.Valid() && name in manager.values && manager.values[name] == cell
    }

    /** Mounting the field: no errors shown, and its cell fetched or created through `useFieldValue`. */
    constructor (manager: FormManager<V>, name: string, hasOnChange: bool)
      requires manager.Valid()
      modifies manager
      ensures Valid()
      ensures this.manager == manager && this.name == name && this.hasOnChange == hasOnChange
      ensures errors == []
      ensures manager.onSubmit == old(manager.onSubmit)
      ensures name in old(manager.values) ==> cell == old(manager.values)[name] && manager.values == old(manager.values)
      ensures name !in old(manager.values) ==> fresh(cell) && cell.value == None && manager.values == old(manager.values)[name := cell]
    {
      var c := manager.FieldValue(name);
      this.name := name;
      this.manager := manager;
      this.hasOnChange := hasOnChange;
      this.cell := c;
      errors := [];
    }

    /**
     * The `onChange` handed to the wrapped input. The caller's own `onChange`
     * gets the result first and unchanged; then the shown errors become a
     * Left's diagnostics, or nothing for a Right; only a Right is written to
     * the store, and only into this field's cell.
     */
    method OnChange(result: Either<seq<FormError>, V>) returns (effects: seq<Effect<V>>)
      requires Valid()
      modifies this`errors, cell
      ensures Valid()
      ensures errors == (if IsLeft(result) then result.left else [])
      ensures cell.value == (if IsRight(result) then Some(result.right) else old(cell.value))
      ensures manager.Snapshot() ==
        if IsRight(result) then old(manager.Snapshot())[name := Some(result.right)] else old(manager.Snapshot())
      ensures effects ==
        (if hasOnChange then [CallerOnChange(result)] else [])
        + [SetErrors(errors)]
        + (if IsRight(result) then [SetValue(result.right)] else [])
    {
      effects := [];
      if hasOnChange {
        effects := effects + [CallerOnChange(result)];
      }
      errors := if IsLeft(result) then result.left else [];
      effects := effects + [SetErrors(errors)];
      if IsRight(result) {
        cell.Write(result.right);
        effects := effects + [SetValue(result.right)];
      }
    }
  }
}
