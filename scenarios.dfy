/**
 * The usage scenarios, stated over the pure model, and a client
 * of the engine object that validates twice.
 */
module Scenarios {
  import opened Wrappers
  import opened CLib
  import opened Config
  import opened Validation
  import opened Engine
  import opened Properties

  /**
   * A table with min_chars "4" and max_chars "10", VALIDATE_ALPHA, "ab\n":
   * too short, because the newline counts toward the length.
   */
  lemma ShortAlphaInput(m: map<string, string>, isNumber: string -> bool)
    requires Lookup(m, "min_chars", "0") == "4" && Lookup(m, "max_chars", "0") == "10"
    ensures Validate(Alpha, m, isNumber, "ab\n") == Fail(AtLeastChars(4))
  {
    FourToTenChars(m);
  }

  lemma FourToTenChars(m: map<string, string>)
    requires Lookup(m, "min_chars", "0") == "4" && Lookup(m, "max_chars", "0") == "10"
    ensures MinChars(m) == 4 && MaxChars(m) == 10
  {
    assert IntToString(4) == "4" && IntToString(10) == "10";
    AtoiOfIntToString(4);
    AtoiOfIntToString(10);
  }

  /** An empty table, VALIDATE_ALPHANUM, "Test123": accepted. */
  lemma EmptyConfigAlphaNum(isNumber: string -> bool)
    ensures Validate(AlphaNum, map[], isNumber, "Test123") == Pass
  {
    EmptyConfigHasNoLengthBounds("Test123");
    AlphaNumTextScans();
  }

  lemma EmptyConfigHasNoLengthBounds(buff: string)
    ensures IsValidLen(map[], buff) == Pass && AllowedChars(map[]) == ""
  {
    AbsentKeysReadAsDefaults(map[]);
  }

  lemma AlphaNumTextScans()
    ensures Scan("Test123", TypeAlphaNum, "") == Pass
  {
    var s := "Test123";
    assert forall i :: 0 <= i < |s| ==> IsAlnum(s[i]) by {
      assert IsAlpha(s[0]) && IsAlpha(s[1]) && IsAlpha(s[2]) && IsAlpha(s[3]);
      assert IsDigit(s[4]) && IsDigit(s[5]) && IsDigit(s[6]);
    }
    ScanPassesIff(s, TypeAlphaNum, "");
  }

  /** {allowed_chars: "abcd"}, VALIDATE_ALPHANUM, "abXd": 'X' is alphanumeric but not allowed. */
  lemma AllowListRejects(isNumber: string -> bool)
    ensures Validate(AlphaNum, map["allowed_chars" := "abcd"], isNumber, "abXd") == Fail(InvalidCharacters)
  {
    AllowListOnlyConfig("abXd");
    OutsideAllowListScans();
  }

  lemma AllowListOnlyConfig(buff: string)
    ensures IsValidLen(map["allowed_chars" := "abcd"], buff) == Pass
    ensures AllowedChars(map["allowed_chars" := "abcd"]) == "abcd"
  {
    AbsentKeysReadAsDefaults(map["allowed_chars" := "abcd"]);
  }

  lemma OutsideAllowListScans()
    ensures Scan("abXd", TypeAlphaNum, "abcd") == Fail(InvalidCharacters)
  {
    var s := "abXd";
    assert s[0] == 'a' && s[1] == 'b' && s[2] == 'X';
    assert Offence(s[0], TypeAlphaNum, "abcd") == None by { assert "abcd"[0] == 'a'; }
    assert Offence(s[1], TypeAlphaNum, "abcd") == None by { assert "abcd"[1] == 'b'; }
    assert Offence(s[2], TypeAlphaNum, "abcd") == Some(InvalidCharacters);
    LeftmostOffenceDecides(s, TypeAlphaNum, "abcd", 2);
  }

  /** VALIDATE_NUM on text that is not a number. */
  lemma NotANumberScenario(m: map<string, string>, isNumber: string -> bool)
    requires !isNumber("abc")
    ensures Validate(Num, m, isNumber, "abc") == Fail(NotANumber)
  {
  }

  /** min_num "10", max_num "1000": "5" is outside the range. */
  lemma BelowRangeScenario(m: map<string, string>, isNumber: string -> bool)
    requires Lookup(m, "min_num", "0") == "10" && Lookup(m, "max_num", "0") == "1000" && isNumber("5")
    ensures Validate(Num, m, isNumber, "5") == Fail(OutsideRange(10.0, 1000.0))
  {
    BothBoundsConfig(m);
    FiveBelowTenToThousand(m, isNumber);
  }

  lemma FiveBelowTenToThousand(m: map<string, string>, isNumber: string -> bool)
    requires MinNum(m) == 10.0 && MaxNum(m) == 1000.0 && isNumber("5")
    ensures Validate(Num, m, isNumber, "5") == Fail(OutsideRange(10.0, 1000.0))
  {
    FiveReachesRangeCheck(m, isNumber);
  }

  /** min_num "10", max_num "1000": "50" is inside the range. */
  lemma InRangeScenario(m: map<string, string>, isNumber: string -> bool)
    requires Lookup(m, "min_num", "0") == "10" && Lookup(m, "max_num", "0") == "1000" && isNumber("50")
    ensures Validate(Num, m, isNumber, "50") == Pass
  {
    BothBoundsConfig(m);
    FiftyWithinTenToThousand(m, isNumber);
  }

  lemma FiftyWithinTenToThousand(m: map<string, string>, isNumber: string -> bool)
    requires MinNum(m) == 10.0 && MaxNum(m) == 1000.0 && isNumber("50")
    ensures Validate(Num, m, isNumber, "50") == Pass
  {
    FiftyReachesRangeCheck(m, isNumber);
  }

  lemma BothBoundsConfig(m: map<string, string>)
    requires Lookup(m, "min_num", "0") == "10" && Lookup(m, "max_num", "0") == "1000"
    ensures MinNum(m) == 10.0 && MaxNum(m) == 1000.0
  {
    assert IntToString(10) == "10" && IntToString(1000) == "1000";
    AtofOfIntToString(10);
    AtofOfIntToString(1000);
  }

  /** "5" passes the number test and the length guard, and is range-checked as 5. */
  lemma FiveReachesRangeCheck(m: map<string, string>, isNumber: string -> bool)
    requires isNumber("5")
    ensures Validate(Num, m, isNumber, "5") == RangeCheck(5.0, MinNum(m), MaxNum(m))
  {
    FiveParses();
    NumericCheckOrder(m, isNumber, "5");
  }

  /** "50" passes the number test and the length guard, and is range-checked as 50. */
  lemma FiftyReachesRangeCheck(m: map<string, string>, isNumber: string -> bool)
    requires isNumber("50")
    ensures Validate(Num, m, isNumber, "50") == RangeCheck(50.0, MinNum(m), MaxNum(m))
  {
    FiftyParses();
    NumericCheckOrder(m, isNumber, "50");
  }

  lemma FiveParses()
    ensures Atof("5") == 5.0
  {
    assert IntToString(5) == "5";
    AtofOfIntToString(5);
  }

  lemma FiftyParses()
    ensures Atof("50") == 50.0
  {
    assert IntToString(50) == "50";
    AtofOfIntToString(50);
  }

  /** min_num "10" and no max_num: "5" gets the minimum-only message. */
  lemma MinOnlyScenario(m: map<string, string>, isNumber: string -> bool)
    requires Lookup(m, "min_num", "0") == "10" && "max_num" !in m && isNumber("5")
    ensures Validate(Num, m, isNumber, "5") == Fail(GreaterThan(10.0))
  {
    MinOnlyConfig(m);
    FiveBelowTen(m, isNumber);
  }

  lemma MinOnlyConfig(m: map<string, string>)
    requires Lookup(m, "min_num", "0") == "10" && "max_num" !in m
    ensures MinNum(m) == 10.0 && MaxNum(m) == 0.0
  {
    assert IntToString(10) == "10";
    AtofOfIntToString(10);
    AbsentKeysReadAsDefaults(m);
  }

  lemma FiveBelowTen(m: map<string, string>, isNumber: string -> bool)
    requires MinNum(m) == 10.0 && MaxNum(m) == 0.0 && isNumber("5")
    ensures Validate(Num, m, isNumber, "5") == Fail(GreaterThan(10.0))
  {
    FiveReachesRangeCheck(m, isNumber);
  }

  /**
   * The engine keeps no state between calls: validating the same string
   * twice gives the same result and writes the same diagnostic.
   */
  method ValidateTwice(v: Validator, status: Status, buff: string) returns (first: int, second: int)
    requires NoNul(buff)
    modifies status
    ensures first == second
    ensures first == 1 <==> Validate(v.strategy, v.cfg.entries, v.isNumber, buff).Pass?
    ensures first == 0 ==> status.msg == Some(Validate(v.strategy, v.cfg.entries, v.isNumber, buff).diag)
  {
    first := v.IsValid(status, buff);
    ghost var written := status.msg;
    second := v.IsValid(status, buff);
    assert first == 0 ==> status.msg == written;
  }
}
