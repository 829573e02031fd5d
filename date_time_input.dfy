/**
 * The combined date and time input (src/components/DateTimeInput.tsx): the
 * latest result of each half is kept in a ref, and every change of either
 * half recomputes the combined result with `update()`, which applies the
 * temporal checks and drains the caller's handler.
 */
module DateTimeInput {
  import opened Util
  import opened Form
  import opened RawInput

  /** The `Date` built from the two halves: what the handler receives. */
  datatype Stamp = Stamp(date: XDate, time: XTime)

  /** What a half reports through its `onChange`. */
  type DateResult = Either<seq<FormError>, XDate>
  type TimeResult = Either<seq<FormError>, XTime>

  /** What the combined input reports: the handler's return may be `undefined`. */
  type Combined<T> = Either<seq<FormError>, Option<T>>

  const FutureRequired := FormError("De geselecteerde datum moet in de toekomst liggen.")
  const PastRequired := FormError("De geselecteerde datum moet in het verleden liggen.")

  /** The default handler, `identity`: no errors, the stamp itself. */
  function IdentityHandler(s: Stamp): Generated<Stamp>
  {
    Identity(Some(s))
  }

  /** The errors a Left half contributes, nothing for a Right one. */
  function LeftErrors<R>(e: Either<seq<FormError>, R>): seq<FormError>
  {
    if IsLeft(e) then e.left else []
  }

  /**
   * The result `update()` computes from the two refs. `isBeforeNow` and
   * `isAfterNow` say how the built `Date` compares with the current minute.
   */
  function Merged<T>(date: DateResult, time: TimeResult, past: bool, future: bool,
                     isBeforeNow: bool, isAfterNow: bool, handler: Stamp -> Generated<T>): Combined<T>
  {
    if IsLeft(date) || IsLeft(time) then
      Left(LeftErrors(date) + LeftErrors(time))
    else
      var g := handler(Stamp(date.right, time.right));
      var errors := (if future && isBeforeNow then [FutureRequired] else [])
        + (if past && isAfterNow then [PastRequired] else [])
        + g.errors;
      if |errors| > 0 then Left(errors) else Right(g.value)
  }

  /** Whether a combined result shows errors: a Left with at least one diagnostic. */
  predicate ShowsErrors<T>(r: Combined<T>)
  {
    IsLeft(r) && |r.left| > 0
  }

  /** A Left half makes the result Left: the date half's diagnostics, then the time half's. */
  lemma LeftHalvesConcatenate<T>(date: DateResult, time: TimeResult, past: bool, future: bool,
                                 isBeforeNow: bool, isAfterNow: bool, handler: Stamp -> Generated<T>)
    requires IsLeft(date) || IsLeft(time)
    ensures var r := Merged(date, time, past, future, isBeforeNow, isAfterNow, handler);
      && IsLeft(r)
      && r.left == LeftErrors(date) + LeftErrors(time)
      && |r.left| == |LeftErrors(date)| + |LeftErrors(time)|
  {
  }

  /**
   * As long as one half has never reported, the result is a Left with no
   * diagnostic at all, which shows no errors.
   */
  lemma UnfilledHalfGivesEmptyLeft<T>(filled: DateResult, other: TimeResult, past: bool, future: bool,
                                      isBeforeNow: bool, isAfterNow: bool, handler: Stamp -> Generated<T>)
    requires LeftErrors(filled) == [] && LeftErrors(other) == []
    ensures Merged(filled, Left([]), past, future, isBeforeNow, isAfterNow, handler) == Left([])
    ensures Merged(Left([]), other, past, future, isBeforeNow, isAfterNow, handler) == Left([])
    ensures !ShowsErrors(Merged(filled, Left([]), past, future, isBeforeNow, isAfterNow, handler))
    ensures !ShowsErrors(Merged(Left([]), other, past, future, isBeforeNow, isAfterNow, handler))
  {
    var noTime: TimeResult := Left([]);
    var noDate: DateResult := Left([]);
    assert LeftErrors(noTime) == [] && LeftErrors(noDate) == [];
    assert LeftErrors(filled) + LeftErrors(noTime) == [];
    assert LeftErrors(noDate) + LeftErrors(other) == [];
  }

  /**
   * With both halves Right, the diagnostics are the future check's, then the
   * past check's, then all of the handler's (drained even after a temporal
   * error); the result is Right with the handler's return exactly when there
   * are none.
   */
  lemma BothHalvesRight<T>(x: XDate, t: XTime, past: bool, future: bool,
                           isBeforeNow: bool, isAfterNow: bool, handler: Stamp -> Generated<T>)
    ensures var r := Merged(Right(x), Right(t), past, future, isBeforeNow, isAfterNow, handler);
      var g := handler(Stamp(x, t));
      && (IsRight(r) <==> !(future && isBeforeNow) && !(past && isAfterNow) && g.errors == [])
      && (IsRight(r) ==> r.right == g.value)
      && (IsLeft(r) ==> |r.left| > 0 && r.left[|r.left| - |g.errors|..] == g.errors)
      && (IsLeft(r) ==> |r.left| == (if future && isBeforeNow then 1 else 0) + (if past && isAfterNow then 1 else 0) + |g.errors|)
      && (IsLeft(r) && future && isBeforeNow ==> r.left[0] == FutureRequired)
      && (IsLeft(r) && past && isAfterNow ==> r.left[|r.left| - |g.errors| - 1] == PastRequired)
  {
    var g := handler(Stamp(x, t));
    var front := (if future && isBeforeNow then [FutureRequired] else []) + (if past && isAfterNow then [PastRequired] else []);
    var errors := front + g.errors;
    assert errors[|errors| - |g.errors|..] == g.errors;
    if past && isAfterNow {
      assert PastRequired == front[|front| - 1] == errors[|front| - 1];
    }
  }

  /** With the default handler and no temporal error, the built stamp itself comes back. */
  lemma IdentityReturnsStamp(x: XDate, t: XTime, past: bool, future: bool, isBeforeNow: bool, isAfterNow: bool)
    requires !(future && isBeforeNow) && !(past && isAfterNow)
    ensures Merged(Right(x), Right(t), past, future, isBeforeNow, isAfterNow, IdentityHandler) == Right(Some(Stamp(x, t)))
  {
  }

  class DateTimeInput<T> {
    /** The `past` and `future` props. */
    const past: bool
    const future: bool
    /** The `handler` prop (`identity` when absent). */
    const handler: Stamp -> Generated<T>
    /** Whether the caller passed its own `onChange`. */
    const hasOnChange: bool
    /** `dateRef.current` and `timeRef.current`. */
    var dateRef: DateResult
    var timeRef: TimeResult
    /** The `hasErrors` state, which draws the red border. */
    var hasErrors: bool

    /** Mounting: both refs start as `Left([])`, and no errors are shown. */
    constructor (past: bool, future: bool, handler: Stamp -> Generated<T>, hasOnChange: bool)
      ensures this.past == past && this.future == future && this.handler == handler && this.hasOnChange == hasOnChange
      ensures dateRef == Left([]) && timeRef == Left([]) && !hasErrors
    {
      this.past := past;
      this.future := future;
      this.handler := handler;
      this.hasOnChange := hasOnChange;
      dateRef := Left([]);
      timeRef := Left([]);
      hasErrors := false;
    }

    /**
     * `update()`: computes the combined result from the refs, sets `hasErrors`
     * to whether it has diagnostics, and hands it to the caller's `onChange`
     * once (`called`), if there is one.
     */
    method Update(isBeforeNow: bool, isAfterNow: bool) returns (result: Combined<T>, called: Option<Combined<T>>)
      modifies this`hasErrors
      ensures result == Merged(dateRef, timeRef, past, future, isBeforeNow, isAfterNow, handler)
      ensures hasErrors == ShowsErrors(result)
      ensures called == if hasOnChange then Some(result) else None
    {
      var errors: seq<FormError> := [];
      if IsLeft(dateRef) || IsLeft(timeRef) {
        if IsLeft(dateRef) {
          errors := errors + dateRef.left;
        }
        if IsLeft(timeRef) {
          errors := errors + timeRef.left;
        }
        assert errors == LeftErrors(dateRef) + LeftErrors(timeRef);
        result := Left(errors);
        hasErrors := |errors| > 0;
      } else {
        if future && isBeforeNow {
          errors := errors + [FutureRequired];
        }
        if past && isAfterNow {
          errors := errors + [PastRequired];
        }
        assert errors == (if future && isBeforeNow then [FutureRequired] else [])
          + (if past && isAfterNow then [PastRequired] else []);
        var out;
        errors, out := Drain(errors, handler(Stamp(dateRef.right, timeRef.right)));
        hasErrors := |errors| > 0;
        result := if |errors| > 0 then Left(errors) else Right(out);
      }
      called := if hasOnChange then Some(result) else None;
    }

    /** The date half's `onChange`: overwrites only `dateRef`, then runs `update()`. */
    method OnDateChange(r: DateResult, isBeforeNow: bool, isAfterNow: bool) returns (result: Combined<T>, called: Option<Combined<T>>)
      modifies this`dateRef, this`hasErrors
      ensures dateRef == r && timeRef == old(timeRef)
      ensures result == Merged(r, timeRef, past, future, isBeforeNow, isAfterNow, handler)
      ensures hasErrors == ShowsErrors(result)
      ensures called == if hasOnChange then Some(result) else None
    {
      dateRef := r;
      result, called := Update(isBeforeNow, isAfterNow);
    }

    /** The time half's `onChange`: overwrites only `timeRef`, then runs `update()`. */
    method OnTimeChange(r: TimeResult, isBeforeNow: bool, isAfterNow: bool) returns (result: Combined<T>, called: Option<Combined<T>>)
      modifies this`timeRef, this`hasErrors
      ensures timeRef == r && dateRef == old(dateRef)
      ensures result == Merged(dateRef, r, past, future, isBeforeNow, isAfterNow, handler)
      ensures hasErrors == ShowsErrors(result)
      ensures called == if hasOnChange then Some(result) else None
    {
      timeRef := r;
      result, called := Update(isBeforeNow, isAfterNow);
    }
  }

  /**
   * A fresh input whose date half reports a valid date first: the caller is
   * told Left with no diagnostics, and no errors are shown.
   */
  method FirstDateChange<T>(handler: Stamp -> Generated<T>, x: XDate, isBeforeNow: bool, isAfterNow: bool)
    returns (result: Combined<T>, shown: bool)
    ensures result == Left([]) && !shown
  {
    var input := new DateTimeInput(false, false, handler, true);
    var called;
    result, called := input.OnDateChange(Right(x), isBeforeNow, isAfterNow);
    shown := input.hasErrors;
  }
}
