/**
 * What the validation engine promises, stated over the pure model: the
 * order of the checks, which message wins, which characters are exempt,
 * what each strategy reads from the table, and the usage scenarios.
 */
module Properties {
  import opened Wrappers
  import opened CLib
  import opened Config
  import opened Validation

  // ---------------------------------------------------------------------------
  //  Length gate
  // ---------------------------------------------------------------------------

  /** A too-short input fails with the minimum message whatever the maximum is. */
  lemma MinimumCheckedFirst(minChars: int, maxChars: int, len: int)
    requires minChars > 0 && len < minChars
    ensures LengthGate(minChars, maxChars, len) == Fail(AtLeastChars(minChars))
  {
  }

  /** Past the minimum test, a too-long input fails with the maximum message. */
  lemma MaximumCheckedSecond(minChars: int, maxChars: int, len: int)
    requires !(minChars > 0 && len < minChars)
    requires maxChars > 0 && len > maxChars
    ensures LengthGate(minChars, maxChars, len) == Fail(ExceedsChars(maxChars))
  {
  }

  /** With both bounds at most 0 every input passes the gate. */
  lemma NoBoundsNoLengthFailure(minChars: int, maxChars: int, len: int)
    requires minChars <= 0 && maxChars <= 0
    ensures LengthGate(minChars, maxChars, len) == Pass
  {
  }

  /**
   * A length failure decides a string strategy before any character is
   * looked at: the verdict is the gate's, and any other string of the same
   * length, under either class, gets the same verdict.
   */
  lemma LengthFailureShortCircuits(m: map<string, string>, buff: string, other: string, t: CharClass, t': CharClass)
    requires IsValidLen(m, buff).Fail?
    requires |other| == |buff|
    ensures ValidateString(m, buff, t) == IsValidLen(m, buff)
    ensures ValidateString(m, other, t') == ValidateString(m, buff, t)
  {
  }

  // ---------------------------------------------------------------------------
  //  Character scan
  // ---------------------------------------------------------------------------

  /** The scan passes exactly when no character offends. */
  lemma {:induction false} ScanPassesIff(s: string, t: CharClass, allowed: string)
    ensures Scan(s, t, allowed) == Pass <==> forall i :: 0 <= i < |s| ==> Offence(s[i], t, allowed) == None
  {
    if s != [] {
      ScanPassesIff(s[1..], t, allowed);
      assert forall i :: 1 <= i < |s| ==> s[i] == s[1..][i - 1];
    }
  }

  /** When the scan fails, it reports the offence of the leftmost offending character. */
  lemma {:induction false} ScanFailsAtLeftmost(s: string, t: CharClass, allowed: string) returns (k: nat)
    requires Scan(s, t, allowed).Fail?
    ensures k < |s| && Offence(s[k], t, allowed) == Some(Scan(s, t, allowed).diag)
    ensures forall j :: 0 <= j < k ==> Offence(s[j], t, allowed) == None
  {
    if Offence(s[0], t, allowed).Some? {
      k := 0;
    } else {
      var k' := ScanFailsAtLeftmost(s[1..], t, allowed);
      k := k' + 1;
      assert forall j :: 1 <= j < k ==> s[j] == s[1..][j - 1];
    }
  }

  /** Conversely, the leftmost offending character decides the failure. */
  lemma {:induction false} LeftmostOffenceDecides(s: string, t: CharClass, allowed: string, k: nat)
    requires k < |s| && Offence(s[k], t, allowed).Some?
    requires forall j :: 0 <= j < k ==> Offence(s[j], t, allowed) == None
    ensures Scan(s, t, allowed) == Fail(Offence(s[k], t, allowed).value)
  {
    if k > 0 {
      assert forall j :: 0 <= j < k - 1 ==> s[1..][j] == s[j + 1];
      LeftmostOffenceDecides(s[1..], t, allowed, k - 1);
    }
  }

  /**
   * Newline, space and tab never cause a failure, under either class and
   * whatever the allow-list holds: inserting one anywhere leaves the scan's
   * verdict unchanged.
   */
  lemma {:induction false} SkippedCharactersAreInert(s: string, i: nat, c: char, t: CharClass, allowed: string)
    requires (c == '\n' || c == ' ' || c == '\t') && i <= |s|
    ensures Scan(s[..i] + [c] + s[i..], t, allowed) == Scan(s, t, allowed)
  {
    var s' := s[..i] + [c] + s[i..];
    if i == 0 {
      assert s'[1..] == s;
    } else {
      assert s'[0] == s[0];
      assert s'[1..] == s[1..][..i - 1] + [c] + s[1..][i - 1..];
      SkippedCharactersAreInert(s[1..], i - 1, c, t, allowed);
    }
  }

  /**
   * For the leftmost offending character, a class failure is reported as
   * the class message even when the character is also outside the
   * allow-list.
   */
  lemma ClassTestBeforeAllowList(s: string, t: CharClass, allowed: string, k: nat)
    requires k < |s| && !Skipped(s[k]) && !InClass(t, s[k])
    requires forall j :: 0 <= j < k ==> Offence(s[j], t, allowed) == None
    ensures Scan(s, t, allowed) == Fail(ClassDiag(t))
  {
    LeftmostOffenceDecides(s, t, allowed, k);
  }

  /**
   * A string strategy accepts exactly when the length gate passes and every
   * character that is not skipped is in the class and, when the allow-list
   * is non-empty, in the allow-list.
   */
  lemma ValidateStringIff(m: map<string, string>, buff: string, t: CharClass)
    ensures ValidateString(m, buff, t) == Pass <==>
      LengthAllowed(MinChars(m), MaxChars(m), |buff|) &&
      forall i :: 0 <= i < |buff| && !Skipped(buff[i]) ==>
        InClass(t, buff[i]) && (|AllowedChars(m)| == 0 || buff[i] in AllowedChars(m))
  {
    ScanPassesIff(buff, t, AllowedChars(m));
  }

  /**
   * On failure past the length gate, the diagnostic is the one for the
   * leftmost offending character.
   */
  lemma StringFailureNamesLeftmost(m: map<string, string>, buff: string, t: CharClass) returns (k: nat)
    requires IsValidLen(m, buff).Pass? && ValidateString(m, buff, t).Fail?
    ensures k < |buff| && Offence(buff[k], t, AllowedChars(m)) == Some(ValidateString(m, buff, t).diag)
    ensures forall j :: 0 <= j < k ==> Offence(buff[j], t, AllowedChars(m)) == None
  {
    k := ScanFailsAtLeftmost(buff, t, AllowedChars(m));
  }

  /** Letters and skipped characters within the bounds pass VALIDATE_ALPHA when there is no allow-list. */
  lemma AlphaAcceptsLetters(m: map<string, string>, buff: string)
    requires LengthAllowed(MinChars(m), MaxChars(m), |buff|) && AllowedChars(m) == []
    requires forall i :: 0 <= i < |buff| ==> IsAlpha(buff[i]) || Skipped(buff[i])
    ensures Validate(Alpha, m, (s: string) => false, buff) == Pass
  {
    ValidateStringIff(m, buff, TypeAlpha);
  }

  /** Any digit or punctuation character makes VALIDATE_ALPHA fail. */
  lemma AlphaRejectsNonLetter(m: map<string, string>, buff: string, i: nat)
    requires i < |buff| && !IsAlpha(buff[i]) && !Skipped(buff[i])
    ensures Validate(Alpha, m, (s: string) => false, buff).Fail?
  {
    ValidateStringIff(m, buff, TypeAlpha);
  }

  /** The empty string passes a string strategy whenever no minimum is set. */
  lemma EmptyInputPassesWithoutMinimum(m: map<string, string>, t: CharClass)
    requires MinChars(m) <= 0
    ensures ValidateString(m, "", t) == Pass
  {
  }

  /**
   * The string strategies read only min_chars, max_chars and allowed_chars:
   * two tables that agree on them give the same verdict, whatever min_num
   * and max_num hold.
   */
  lemma StringReadsOnlyCharacterKeys(m: map<string, string>, m': map<string, string>, buff: string, t: CharClass)
    requires Lookup(m, "min_chars", "0") == Lookup(m', "min_chars", "0")
    requires Lookup(m, "max_chars", "0") == Lookup(m', "max_chars", "0")
    requires Lookup(m, "allowed_chars", "") == Lookup(m', "allowed_chars", "")
    ensures ValidateString(m, buff, t) == ValidateString(m', buff, t)
  {
  }

  // ---------------------------------------------------------------------------
  //  Numeric range check
  // ---------------------------------------------------------------------------

  /**
   * VALIDATE_NUM's checks in order: not a number, then text longer than 64
   * characters, then the range test.
   */
  lemma NumericCheckOrder(m: map<string, string>, isNumber: string -> bool, buff: string)
    ensures !isNumber(buff) ==> ValidateNum(m, isNumber, buff) == Fail(NotANumber)
    ensures isNumber(buff) && |buff| > 64 ==> ValidateNum(m, isNumber, buff) == Fail(LargerThanDouble)
    ensures isNumber(buff) && |buff| <= 64 ==>
      ValidateNum(m, isNumber, buff) == RangeCheck(Atof(buff), MinNum(m), MaxNum(m))
  {
  }

  /**
   * With only max_num set, a value above it gets the two-bound message with
   * a lower bound of 0, although negative values are accepted.
   */
  lemma MaxOnlyMessageNamesZero(x: real, below: real, maxNum: real)
    requires maxNum > 0.0 && x > maxNum && below < 0.0
    ensures RangeCheck(x, 0.0, maxNum) == Fail(OutsideRange(0.0, maxNum))
    ensures RangeCheck(below, 0.0, maxNum) == Pass
  {
  }

  /**
   * VALIDATE_NUM reads only min_num and max_num: two tables that agree on
   * them give the same verdict, whatever min_chars, max_chars and
   * allowed_chars hold.
   */
  lemma NumericReadsOnlyNumericBounds(m: map<string, string>, m': map<string, string>, isNumber: string -> bool, buff: string)
    requires Lookup(m, "min_num", "0") == Lookup(m', "min_num", "0")
    requires Lookup(m, "max_num", "0") == Lookup(m', "max_num", "0")
    ensures ValidateNum(m, isNumber, buff) == ValidateNum(m', isNumber, buff)
  {
  }

  /** A bound written as "0" is the same as no bound at all. */
  lemma ZeroBoundIsNoBound(m: map<string, string>, isNumber: string -> bool, buff: string)
    ensures ValidateNum(m["min_num" := "0"], isNumber, buff) == ValidateNum(m - {"min_num"}, isNumber, buff)
    ensures ValidateNum(m["max_num" := "0"], isNumber, buff) == ValidateNum(m - {"max_num"}, isNumber, buff)
  {
    AbsentKeysReadAsDefaults(m["min_num" := "0"]);
    AbsentKeysReadAsDefaults(m - {"min_num"});
    AbsentKeysReadAsDefaults(m["max_num" := "0"]);
    AbsentKeysReadAsDefaults(m - {"max_num"});
  }
}
