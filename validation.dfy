/**
 * The validation engine as pure functions of the configuration table and the
 * candidate string. Every failure is reported with the status code
 * STATUS_INVALID_INPUT; a Diag names which message was written and carries
 * the numbers that were formatted into it.
 */
module Validation {
  import opened Wrappers
  import opened CLib
  import opened Config

  /** sizeof(double) * 8: the longest numeric input text accepted */
  const DoubleBits: nat := 64

  datatype Diag =
    | AtLeastChars(minChars: int)               // "Input requires at least %d characters."
    | ExceedsChars(maxChars: int)               // "Input cannot exceed %d characters."
    | OnlyAlphabetic                            // class failure under TYPE_ALPHA
    | OnlyAlphanumeric                          // class failure under TYPE_ALPHANUM
    | InvalidCharacters                         // "Invalid characters." (allow-list failure)
    | NotANumber                                // "Input was not a valid number."
    | LargerThanDouble                          // "Input was larger than a double."
    | GreaterThan(minNum: real)                 // "Number must be greater than %.2f."
    | OutsideRange(minNum: real, maxNum: real)  // "Number outside of allowed range of %.2f to %.2f."

  /** A validator's verdict: 1, or 0 together with the diagnostic it writes. */
  datatype Outcome = Pass | Fail(diag: Diag)

  /** The character class of a string strategy: TYPE_ALPHA (1) or TYPE_ALPHANUM (2). */
  datatype CharClass = TypeAlpha | TypeAlphaNum

  /** The strategy an engine is bound to: VALIDATE_ALPHA, VALIDATE_ALPHANUM or VALIDATE_NUM. */
  datatype Strategy = Alpha | AlphaNum | Num

  predicate InClass(t: CharClass, c: char) {
    match t
    case TypeAlpha => IsAlpha(c)
    case TypeAlphaNum => IsAlnum(c)
  }

  function ClassDiag(t: CharClass): Diag {
    match t
    case TypeAlpha => OnlyAlphabetic
    case TypeAlphaNum => OnlyAlphanumeric
  }

  /**
   * The characters the scan passes over: NUL, newline, space, tab. The NUL
   * case can never arise, since the loop stops at the terminator.
   */
  predicate Skipped(c: char) { c == '\0' || c == '\n' || c == ' ' || c == '\t' }

  /** A length is within bounds; a bound that is 0 or negative is no bound. */
  predicate LengthAllowed(minChars: int, maxChars: int, len: int) {
    (minChars <= 0 || minChars <= len) && (maxChars <= 0 || len <= maxChars)
  }

  /**
   * The decision of _isvalidlen on the parsed bounds: the minimum is tested
   * before the maximum.
   */
  function LengthGate(minChars: int, maxChars: int, len: int): (r: Outcome)
    ensures r.Pass? <==> LengthAllowed(minChars, maxChars, len)
    ensures r.Fail? ==> r.diag == AtLeastChars(minChars) || r.diag == ExceedsChars(maxChars)
  {
    if minChars > 0 && len < minChars then Fail(AtLeastChars(minChars))
    else if maxChars > 0 && len > maxChars then Fail(ExceedsChars(maxChars))
    else Pass
  }

  /** _isvalidlen: the gate on the raw length, with the bounds read from the table. */
  function IsValidLen(m: map<string, string>, buff: string): (r: Outcome)
    ensures r.Pass? <==> LengthAllowed(MinChars(m), MaxChars(m), |buff|)
    ensures r.Fail? ==> r.diag == AtLeastChars(MinChars(m)) || r.diag == ExceedsChars(MaxChars(m))
  {
    LengthGate(MinChars(m), MaxChars(m), |buff|)
  }

  /**
   * The verdict on one character of a string strategy: skipped characters
   * pass; otherwise the class test comes first, then the allow-list (when it
   * is non-empty).
   */
  function Offence(c: char, t: CharClass, allowed: string): (r: Option<Diag>)
    ensures r == None <==> Skipped(c) || (InClass(t, c) && (|allowed| == 0 || c in allowed))
  {
    if Skipped(c) then None
    else if !InClass(t, c) then Some(ClassDiag(t))
    else if |allowed| > 0 && c !in allowed then Some(InvalidCharacters)
    else None
  }

  /**
   * The character loop of _validate_string: the first offending character
   * decides. Its failure is the class message or the allow-list message,
   * and only the class message when there is no allow-list.
   */
  function Scan(s: string, t: CharClass, allowed: string): (r: Outcome)
    ensures r.Fail? ==> r.diag == ClassDiag(t) || r.diag == InvalidCharacters
    ensures r.Fail? && |allowed| == 0 ==> r.diag == ClassDiag(t)
    ensures (forall i :: 0 <= i < |s| ==> Skipped(s[i])) ==> r == Pass
  {
    if s == [] then Pass
    else
      match Offence(s[0], t, allowed)
      case Some(d) => Fail(d)
      case None => Scan(s[1..], t, allowed)
  }

  /**
   * _validate_string: the length gate, then the character scan. A failure
   * is one of the two length messages, the class message or the allow-list
   * message, and a length failure is always the gate's.
   */
  function ValidateString(m: map<string, string>, buff: string, t: CharClass): (r: Outcome)
    ensures !LengthAllowed(MinChars(m), MaxChars(m), |buff|) ==> r == IsValidLen(m, buff)
    ensures r.Fail? ==> r.diag in {AtLeastChars(MinChars(m)), ExceedsChars(MaxChars(m)), ClassDiag(t), InvalidCharacters}
  {
    var len := IsValidLen(m, buff);
    if len.Fail? then len else Scan(buff, t, AllowedChars(m))
  }

  /** The range test of VALIDATE_NUM; a bound equal to 0 is no bound. */
  predicate OutOfRange(x: real, minNum: real, maxNum: real) {
    (minNum != 0.0 && x < minNum) || (maxNum != 0.0 && x > maxNum)
  }

  /**
   * The range decision of VALIDATE_NUM. On failure the minimum-only message
   * is written exactly when max_num is 0, and then the value really was
   * below a non-zero min_num; otherwise the two-bound message names both
   * configured values.
   */
  function RangeCheck(x: real, minNum: real, maxNum: real): (r: Outcome)
    ensures r.Pass? <==> !OutOfRange(x, minNum, maxNum)
    ensures r.Fail? && maxNum == 0.0 ==> r == Fail(GreaterThan(minNum)) && minNum != 0.0 && x < minNum
    ensures r.Fail? && maxNum != 0.0 ==> r == Fail(OutsideRange(minNum, maxNum))
  {
    if OutOfRange(x, minNum, maxNum) then
      if maxNum == 0.0 then Fail(GreaterThan(minNum)) else Fail(OutsideRange(minNum, maxNum))
    else Pass
  }

  /**
   * VALIDATE_NUM: the number test, then the text-length guard, then the
   * range test. `isNumber` is the number recogniser of the linked library.
   */
  function ValidateNum(m: map<string, string>, isNumber: string -> bool, buff: string): (r: Outcome)
    ensures r.Pass? <==> isNumber(buff) && |buff| <= DoubleBits && !OutOfRange(Atof(buff), MinNum(m), MaxNum(m))
    ensures r.Fail? ==> r.diag in {NotANumber, LargerThanDouble, GreaterThan(MinNum(m)), OutsideRange(MinNum(m), MaxNum(m))}
  {
    if !isNumber(buff) then Fail(NotANumber)
    else if |buff| > DoubleBits then Fail(LargerThanDouble)
    else RangeCheck(Atof(buff), MinNum(m), MaxNum(m))
  }

  /** The string strategies write no numeric message, and each writes only its own class message. */
  lemma StringDiags(m: map<string, string>, buff: string, t: CharClass)
    ensures ValidateString(m, buff, t).Fail? ==> !NumericDiag(ValidateString(m, buff, t).diag)
    ensures ValidateString(m, buff, t).Fail? ==>
      ValidateString(m, buff, t).diag != ClassDiag(if t == TypeAlpha then TypeAlphaNum else TypeAlpha)
  {
    var r := ValidateString(m, buff, t);
    if r.Fail? {
      StringDiagShape(r.diag, MinChars(m), MaxChars(m), t);
    }
  }

  lemma StringDiagShape(d: Diag, minChars: int, maxChars: int, t: CharClass)
    requires d in {AtLeastChars(minChars), ExceedsChars(maxChars), ClassDiag(t), InvalidCharacters}
    ensures !NumericDiag(d) && d != ClassDiag(if t == TypeAlpha then TypeAlphaNum else TypeAlpha)
  {
  }

  /** The messages only VALIDATE_NUM writes. */
  predicate NumericDiag(d: Diag) {
    d.NotANumber? || d.LargerThanDouble? || d.GreaterThan? || d.OutsideRange?
  }

  /**
   * The engine's isvalid entry point, for the strategy it was bound to: a
   * numeric message comes exactly from VALIDATE_NUM, and a string strategy
   * never writes the other class's message.
   */
  function Validate(strategy: Strategy, m: map<string, string>, isNumber: string -> bool, buff: string): (r: Outcome)
    ensures r.Fail? ==> (NumericDiag(r.diag) <==> strategy == Num)
    ensures r.Fail? && strategy == Alpha ==> r.diag != OnlyAlphanumeric
    ensures r.Fail? && strategy == AlphaNum ==> r.diag != OnlyAlphabetic
  {
    match strategy
    case Alpha => StringDiags(m, buff, TypeAlpha); ValidateString(m, buff, TypeAlpha)
    case AlphaNum => StringDiags(m, buff, TypeAlphaNum); ValidateString(m, buff, TypeAlphaNum)
    case Num => ValidateNum(m, isNumber, buff)
  }
}
