/**
 * The phone input (src/components/PhoneInput.tsx): RawInput with the fixed
 * pattern `PHONE_REGEX`, recognised here by hand, in place of any pattern the
 * caller passes.
 */
module PhoneInput {
  import opened Util
  import opened Form
  import opened Numerals
  import opened RawInput

  /** `[1-9][0-9]{7,8}`: a non-zero digit, then seven or eight digits. */
  predicate Subscriber(s: string)
  {
    (|s| == 8 || |s| == 9) && IsNonZeroDigit(s[0]) && AllDigits(s)
  }

  /**
   * `^(\+32[1-9][0-9]{7,8}|0?[1-9][0-9]{7,8})$`, branch by branch: `+32` and
   * a subscriber part, or a subscriber part with or without a leading `0`.
   */
  predicate PhonePattern(s: string)
  {
    || (|s| >= 3 && s[..3] == "+32" && Subscriber(s[3..]))
    || Subscriber(s)
    || (|s| >= 1 && s[0] == '0' && Subscriber(s[1..]))
  }

  /** The recognizer: one decision on the first character, then the subscriber part. */
  function MatchesPhone(s: string): (b: bool)
    ensures b ==> 8 <= |s| <= 12
  {
    if |s| > 0 && s[0] == '+' then |s| >= 3 && s[1] == '3' && s[2] == '2' && Subscriber(s[3..])
    else if |s| > 0 && s[0] == '0' then Subscriber(s[1..])
    else Subscriber(s)
  }

  /** The recognizer accepts exactly the texts the pattern describes. */
  lemma MatchesPhoneIsPattern(s: string)
    ensures MatchesPhone(s) <==> PhonePattern(s)
  {
    if |s| >= 3 {
      assert s[..3] == "+32" <==> s[0] == '+' && s[1] == '3' && s[2] == '2' by {
        assert s[..3] == [s[0], s[1], s[2]];
      }
    }
  }

  /**
   * `PhoneInput`'s handler: RawInput's handler behind `PHONE_REGEX`. The
   * caller's own `regex` is taken from the props and dropped.
   */
  function PhoneHandler(handler: HandlerFn<string, string>, callerRegex: Option<string -> bool>): HandlerFn<string, string>
  {
    InputHandler(handler, Some(MatchesPhone))
  }

  /**
   * Whatever pattern the caller passes, a text gets the pattern error exactly
   * when it is not a phone number, followed by the handler's own errors.
   */
  lemma CallerRegexDiscarded(handler: HandlerFn<string, string>, callerRegex: Option<string -> bool>, text: string)
    ensures var g, h := PhoneHandler(handler, callerRegex)(Some(text)), handler(Some(text));
      && g.errors == (if PhonePattern(text) then [] else [PatternMismatch]) + h.errors
      && g.value == h.value
  {
    PatternRunsFirst(handler, Some(MatchesPhone), text);
    MatchesPhoneIsPattern(text);
  }

  /**
   * Typing into a phone input with the default handler and an `onChange`:
   * `0499123456` is reported as Right of the same text, `abc` as a Left with
   * the single pattern error, whatever pattern the caller passed.
   */
  method ExamplePhones(callerRegex: Option<string -> bool>)
    returns (valid: Fallible<Option<Either<seq<FormError>, string>>>,
             invalid: Fallible<Option<Either<seq<FormError>, string>>>)
    ensures valid == Returned(Some(Right("0499123456")))
    ensures invalid == Returned(Some(Left([PatternMismatch])))
  {
    var handler := PhoneHandler(Identity, callerRegex);
    CallerRegexDiscarded(Identity, callerRegex, "0499123456");
    assert MatchesPhone("0499123456");
    var shown;
    shown, valid := OnInput(handler, "0499123456", true);
    CallerRegexDiscarded(Identity, callerRegex, "abc");
    assert !MatchesPhone("abc");
    MatchesPhoneIsPattern("abc");
    assert handler(Some("abc")).errors == [PatternMismatch] + [] == [PatternMismatch];
    shown, invalid := OnInput(handler, "abc", true);
  }
}
