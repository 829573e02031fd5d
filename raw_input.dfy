/**
 * The validation pipeline of the raw text input (src/components/RawInput.tsx):
 * handlers that yield diagnostics and return a value, their back-to-front
 * composition without short-circuit, the pattern step added for a `regex`,
 * the `onInput` fold into an Either, and the corner bit mask.
 */
module RawInput {
  import opened Util
  import opened Form

  /**
   * A handler's generator, drained: the errors it yields, in order, then what
   * it returns (None for `undefined`).
   */
  datatype Generated<R> = Generated(errors: seq<FormError>, value: Option<R>)

  /** `HandlerFn<T, R>`; JavaScript may pass any handler `undefined`, hence the Option input. */
  type HandlerFn<!T, R> = Option<T> -> Generated<R>

  /** `identity`: yields nothing and returns its input, `undefined` included. */
  function Identity<T>(value: Option<T>): Generated<T>
  {
    Generated([], value)
  }

  /** `RegExp.prototype.test` converts its argument to a string; `undefined` becomes "undefined". */
  function JsString(value: Option<string>): string
  {
    if value.Some? then value.value else "undefined"
  }

  // ---------------------------------------------------------------------------
  // composeHandlers
  // ---------------------------------------------------------------------------

  /**
   * The variadic `composeHandlers(...handlers)` applied to `value`, as a
   * specification: the last handler runs first on the raw input, every
   * handler runs, and each one's return value, `undefined` included, is the
   * next one's input.
   */
  function Composed<V>(handlers: seq<HandlerFn<V, V>>, value: Option<V>): Generated<V>
    decreases |handlers|
  {
    if handlers == [] then Generated([], value)
    else
      var first := handlers[|handlers| - 1](value);
      var rest := Composed(handlers[..|handlers| - 1], first.value);
      Generated(first.errors + rest.errors, rest.value)
  }

  /** The result of each handler, in execution order (last declared first). */
  function Steps<V>(handlers: seq<HandlerFn<V, V>>, value: Option<V>): (steps: seq<Generated<V>>)
    ensures |steps| == |handlers|
    decreases |handlers|
  {
    if handlers == [] then []
    else
      var first := handlers[|handlers| - 1](value);
      [first] + Steps(handlers[..|handlers| - 1], first.value)
  }

  /** All diagnostics of a run of steps, in order. */
  function Flatten<V>(steps: seq<Generated<V>>): seq<FormError>
  {
    if steps == [] then [] else steps[0].errors + Flatten(steps[1..])
  }

  /** Each step after the first runs the next handler down on what the step before it returned. */
  lemma {:induction false} StepsChain<V>(handlers: seq<HandlerFn<V, V>>, value: Option<V>)
    ensures forall k {:trigger Steps(handlers, value)[k]} :: 0 < k < |handlers| ==>
      Steps(handlers, value)[k] == handlers[|handlers| - 1 - k](Steps(handlers, value)[k - 1].value)
    decreases |handlers|
  {
    var n := |handlers|;
    if n > 1 {
      var init := handlers[..n - 1];
      var first := handlers[n - 1](value);
      var steps := Steps(handlers, value);
      var rest := Steps(init, first.value);
      StepsChain(init, first.value);
      assert steps == [first] + rest;
      forall k | 0 < k < n
        ensures steps[k] == handlers[n - 1 - k](steps[k - 1].value)
      {
        assert steps[k] == rest[k - 1];
        assert handlers[n - 1 - k] == init[n - 2 - (k - 1)];
        if k == 1 {
          assert steps[0] == first;
          assert rest[0] == init[n - 2](first.value);
        } else {
          assert steps[k - 1] == rest[k - 2];
        }
      }
    }
  }

  /** The composite yields the steps' diagnostics in execution order and returns the last step's value. */
  lemma {:induction false} ComposedIsSteps<V>(handlers: seq<HandlerFn<V, V>>, value: Option<V>)
    ensures var n, steps := |handlers|, Steps(handlers, value);
      && Composed(handlers, value).errors == Flatten(steps)
      && Composed(handlers, value).value == (if n == 0 then value else steps[n - 1].value)
    decreases |handlers|
  {
    var n := |handlers|;
    if n > 0 {
      var init := handlers[..n - 1];
      var first := handlers[n - 1](value);
      var steps := Steps(handlers, value);
      var rest := Steps(init, first.value);
      ComposedIsSteps(init, first.value);
      assert steps == [first] + rest;
      assert steps[1..] == rest;
      if n > 1 {
        assert steps[n - 1] == rest[n - 2];
      }
    }
  }

  /**
   * No short-circuit: step k of the composite is handler `n-1-k` run once on
   * what step k-1 returned (the raw input for k = 0), even after diagnostics;
   * the composite yields every step's diagnostics in execution order and
   * returns what the first-declared handler returned.
   */
  lemma EveryHandlerRunsOnce<V>(handlers: seq<HandlerFn<V, V>>, value: Option<V>)
    ensures var n, steps := |handlers|, Steps(handlers, value);
      && (n > 0 ==> steps[0] == handlers[n - 1](value))
      && (forall k :: 0 < k < n ==> steps[k] == handlers[n - 1 - k](steps[k - 1].value))
      && Composed(handlers, value).errors == Flatten(steps)
      && Composed(handlers, value).value == (if n == 0 then value else steps[n - 1].value)
  {
    StepsChain(handlers, value);
    ComposedIsSteps(handlers, value);
  }

  /** Composing a composite: the right-hand part runs first and feeds the left-hand part. */
  lemma {:induction false} ComposedAppend<V>(a: seq<HandlerFn<V, V>>, b: seq<HandlerFn<V, V>>, value: Option<V>)
    ensures var rb := Composed(b, value);
      var ra := Composed(a, rb.value);
      Composed(a + b, value) == Generated(rb.errors + ra.errors, ra.value)
    decreases |b|
  {
    if b == [] {
      assert a + b == a;
    } else {
      var ab := a + b;
      var init := b[..|b| - 1];
      assert ab[|ab| - 1] == b[|b| - 1];
      assert ab[..|ab| - 1] == a + init;
      ComposedAppend(a, init, b[|b| - 1](value).value);
    }
  }

  /** `identity` is neutral: inserting it anywhere into a composition changes nothing. */
  lemma IdentityIsNeutral<V>(a: seq<HandlerFn<V, V>>, b: seq<HandlerFn<V, V>>, value: Option<V>)
    ensures Composed(a + [Identity] + b, value) == Composed(a + b, value)
  {
    var id: HandlerFn<V, V> := Identity;
    ComposedAppend(a + [id], b, value);
    ComposedAppend(a, [id], Composed(b, value).value);
    ComposedAppend(a, b, value);
  }

  /** The typed two-handler form `composeHandlers(a, b)`: `b` runs first and `a` gets what it returns. */
  function ComposeTwo<A, B, C>(a: HandlerFn<B, C>, b: HandlerFn<A, B>, value: Option<A>): Generated<C>
  {
    var gb := b(value);
    var ga := a(gb.value);
    Generated(gb.errors + ga.errors, ga.value)
  }

  /** The typed two-handler form behaves as the variadic composition of the same two handlers. */
  lemma ComposeTwoIsComposed<V>(a: HandlerFn<V, V>, b: HandlerFn<V, V>, value: Option<V>)
    ensures ComposeTwo(a, b, value) == Composed([a, b], value)
  {
    var gb := b(value);
    var ga := a(gb.value);
    assert [a, b][..1] == [a];
    assert [a][..0] == [];
    assert Composed([a], gb.value) == Generated(ga.errors + [], ga.value);
    assert ga.errors + [] == ga.errors;
  }

  /**
   * Drains a handler's generator: pushes every yielded error onto `acc`,
   * in order, and gives back what the generator returned.
   */
  method Drain<R>(acc: seq<FormError>, g: Generated<R>) returns (pushed: seq<FormError>, out: Option<R>)
    ensures pushed == acc + g.errors
    ensures out == g.value
  {
    pushed := acc;
    var i := 0;
    while i < |g.errors|
      invariant 0 <= i <= |g.errors|
      invariant pushed == acc + g.errors[..i]
    {
      pushed := pushed + [g.errors[i]];
      i := i + 1;
    }
    assert g.errors[..i] == g.errors;
    out := g.value;
  }

  /** One step of the composite: the handler at `i - 1` runs, then the ones before it. */
  lemma ComposedPrefixStep<V>(handlers: seq<HandlerFn<V, V>>, i: nat, value: Option<V>)
    requires 0 < i <= |handlers|
    ensures var g := handlers[i - 1](value);
      var rest := Composed(handlers[..i - 1], g.value);
      Composed(handlers[..i], value) == Generated(g.errors + rest.errors, rest.value)
  {
    assert handlers[..i][..i - 1] == handlers[..i - 1];
  }

  /**
   * The composite handler of `composeHandlers(...handlers)` run on `value`:
   * the loop from the last handler down to the first, draining each one.
   */
  method ComposeHandlers<V>(handlers: seq<HandlerFn<V, V>>, value: Option<V>) returns (errors: seq<FormError>, out: Option<V>)
    ensures Generated(errors, out) == Composed(handlers, value)
  {
    errors, out := [], value;
    var i := |handlers|;
    assert handlers[..i] == handlers;
    while i > 0
      invariant 0 <= i <= |handlers|
      invariant errors + Composed(handlers[..i], out).errors == Composed(handlers, value).errors
      invariant Composed(handlers[..i], out).value == Composed(handlers, value).value
    {
      ComposedPrefixStep(handlers, i, out);
      i := i - 1;
      var handler := handlers[i];
      errors, out := Drain(errors, handler(out));
    }
    assert handlers[..0] == [];
  }

  // ---------------------------------------------------------------------------
  // The `regex` prop
  // ---------------------------------------------------------------------------

  const PatternMismatch := FormError("De opgegeven tekst kwam niet overeen met het gevraagde patroon.")

  /**
   * The step RawInput adds for a `regex` (any string predicate here): one
   * fixed error when the text does not match, and the input returned
   * unchanged either way.
   */
  function PatternStep(test: string -> bool, value: Option<string>): Generated<string>
  {
    Generated(if test(JsString(value)) then [] else [PatternMismatch], value)
  }

  /** The handler RawInput runs: the given one, behind the pattern step when a `regex` is given. */
  function InputHandler<T>(handler: HandlerFn<string, T>, regex: Option<string -> bool>): HandlerFn<string, T>
  {
    match regex
    case None => handler
    case Some(test) => (value: Option<string>) => ComposeTwo(handler, (v: Option<string>) => PatternStep(test, v), value)
  }

  /**
   * With a `regex`, the pattern error (exactly one, exactly when the text does
   * not match) comes first, and the handler still runs, on the text unchanged;
   * without one, the handler runs alone.
   */
  lemma PatternRunsFirst<T>(handler: HandlerFn<string, T>, regex: Option<string -> bool>, text: string)
    ensures var g, h := InputHandler(handler, regex)(Some(text)), handler(Some(text));
      && g.value == h.value
      && (regex.None? ==> g.errors == h.errors)
      && (regex.Some? ==> g.errors == (if regex.value(text) then [] else [PatternMismatch]) + h.errors)
  {
    if regex.Some? {
      var step := (v: Option<string>) => PatternStep(regex.value, v);
      assert step(Some(text)).value == Some(text);
      assert InputHandler(handler, regex)(Some(text)) == ComposeTwo(handler, step, Some(text));
    }
  }

  // ---------------------------------------------------------------------------
  // onInput
  // ---------------------------------------------------------------------------

  /**
   * The `onInput` listener: drains the handler on the input's text and sets
   * `hasErrors`. With an `onChange` (the Some it reports), the result is
   * Left(errors) when anything was yielded, otherwise Right(out); no errors
   * and an `undefined` out fails the assertion. Without one nothing is
   * reported and nothing is asserted.
   */
  method OnInput<T>(handler: HandlerFn<string, T>, text: string, hasOnChange: bool)
    returns (hasErrors: bool, reported: Fallible<Option<Either<seq<FormError>, T>>>)
    ensures var g := handler(Some(text));
      && hasErrors == (g.errors != [])
      && (!hasOnChange ==> reported == Returned(None))
      && (hasOnChange && g.errors != [] ==> reported == Returned(Some(Left(g.errors))))
      && (hasOnChange && g.errors == [] && g.value.Some? ==> reported == Returned(Some(Right(g.value.value))))
      && (hasOnChange && g.errors == [] && g.value.None? ==> reported == Threw(AssertionMessage))
  {
    var errors: seq<FormError>, out: Option<T> := Drain([], handler(Some(text)));
    assert errors == handler(Some(text)).errors;
    hasErrors := |errors| > 0;
    if !hasOnChange {
      return hasErrors, Returned(None);
    }
    if |errors| > 0 {
      reported := Returned(Some(MakeLeft(errors)));
    } else {
      var check := Assert(out.Some?);
      if check.Threw? {
        reported := Threw(check.message);
      } else {
        reported := Returned(Some(MakeRight(out.value)));
      }
    }
  }

  // ---------------------------------------------------------------------------
  // Corners
  // ---------------------------------------------------------------------------

  /** `Corner` (the four sides are its derived directions), as 32-bit masks (JavaScript's bitwise operators work on 32 bits). */
  const TopLeft: bv32 := 1
  const TopRight: bv32 := 2
  const BottomLeft: bv32 := 4
  const BottomRight: bv32 := 8
  const TopSide: bv32 := TopLeft | TopRight
  const LeftSide: bv32 := TopLeft | BottomLeft
  const BottomSide: bv32 := BottomLeft | BottomRight
  const RightSide: bv32 := TopRight | BottomRight

  /**
   * `getCorners`: a corner stays rounded exactly when neither side that meets
   * there is joined to a neighbour; the bits above the four corners stay set,
   * as they are in the starting `~0`.
   */
  method GetCorners(top: bool, left: bool, bottom: bool, right: bool) returns (out: bv32)
    ensures (out & TopLeft != 0) <==> !top && !left
    ensures (out & TopRight != 0) <==> !top && !right
    ensures (out & BottomLeft != 0) <==> !bottom && !left
    ensures (out & BottomRight != 0) <==> !bottom && !right
    ensures out | 0xF == 0xFFFF_FFFF
  {
    out := !0;
    if top {
      out := out & !TopSide;
    }
    if left {
      out := out & !LeftSide;
    }
    if bottom {
      out := out & !BottomSide;
    }
    if right {
      out := out & !RightSide;
    }
  }
}
