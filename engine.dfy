/**
 * The IOValidate object: created once by init_validate, bound to one
 * strategy and to the caller's configuration table, and asked to validate
 * candidate strings through its isvalid entry point.
 */
module Engine {
  import opened Wrappers
  import opened CLib
  import opened Config
  import opened Validation

  /** The caller's Status record; `msg` is the last diagnostic written to it. */
  class Status {
    var msg: Option<Diag>

    constructor ()
      ensures msg == None
    {
      msg := None;
    }
  }

  class Validator {
    /** The borrowed configuration table (__cfg__). */
    const cfg: Hashtable
    /** The validation function bound at construction (isvalid). */
    const strategy: Strategy
    /** is_number, used by VALIDATE_NUM. */
    const isNumber: string -> bool

    /** init_validate: binds the strategy and the table for the object's lifetime. */
    constructor (cfg: Hashtable, strategy: Strategy, isNumber: string -> bool)
      ensures this.cfg == cfg && this.strategy == strategy && this.isNumber == isNumber
    {
      this.cfg := cfg;
      this.strategy := strategy;
      this.isNumber := isNumber;
    }

    /**
     * _validate_string: the length gate; a length failure is the verdict and
     * no character is looked at.
     */
    method ValidateString(buff: string, t: CharClass) returns (r: Outcome)
      requires NoNul(buff)
      ensures r == Validation.ValidateString(cfg.entries, buff, t)
    {
      r := IsValidLen(cfg.entries, buff);
      if r.Pass? {
        r := ScanCharacters(buff, t);
      }
    }

    /**
     * The character loop of _validate_string: a left-to-right walk that
     * stops at the terminator, skips NUL, newline, space and tab, and fails
     * at the first character outside the class or outside a non-empty
     * allow-list (which it reads from the table at each character).
     */
    method ScanCharacters(buff: string, t: CharClass) returns (r: Outcome)
      requires NoNul(buff)
      ensures r == Scan(buff, t, AllowedChars(cfg.entries))
    {
      ghost var allowedAll := AllowedChars(cfg.entries);
      var i := 0;
      while i < |buff| && buff[i] != '\0'
        invariant 0 <= i <= |buff|
        invariant Scan(buff, t, allowedAll) == Scan(buff[i..], t, allowedAll)
      {
        var c := buff[i];
        if c == '\0' || c == '\n' || c == ' ' || c == '\t' {
          i := i + 1;
          continue;
        }
        if t == TypeAlpha && !IsAlpha(c) {
          return Fail(OnlyAlphabetic);
        } else if t == TypeAlphaNum && !IsAlnum(c) {
          return Fail(OnlyAlphanumeric);
        }
        var allowed := cfg.Get("allowed_chars", "");
        if |allowed| > 0 && c !in allowed {
          return Fail(InvalidCharacters);
        }
        i := i + 1;
      }
      return Pass;
    }

    /** VALIDATE_ALPHA */
    method ValidateAlpha(buff: string) returns (r: Outcome)
      requires NoNul(buff)
      ensures r == Validation.ValidateString(cfg.entries, buff, TypeAlpha)
    {
      r := ValidateString(buff, TypeAlpha);
    }

    /** VALIDATE_ALPHANUM */
    method ValidateAlphaNum(buff: string) returns (r: Outcome)
      requires NoNul(buff)
      ensures r == Validation.ValidateString(cfg.entries, buff, TypeAlphaNum)
    {
      r := ValidateString(buff, TypeAlphaNum);
    }

    /**
     * isvalid: 1 when the bound strategy accepts `buff`, else 0. On failure
     * the diagnostic is written to `status` when one was supplied; on
     * success `status` is left untouched.
     */
    method IsValid(status: Status?, buff: string) returns (ok: int)
      requires NoNul(buff)
      modifies status
      ensures ok == 1 || ok == 0
      ensures ok == 1 <==> Validate(strategy, cfg.entries, isNumber, buff).Pass?
      ensures status != null && ok == 0 ==> status.msg == Some(Validate(strategy, cfg.entries, isNumber, buff).diag)
      ensures status != null && ok == 1 ==> status.msg == old(status.msg)
    {
      var r: Outcome;
      match strategy {
        case Alpha =>
          r := ValidateAlpha(buff);
        case AlphaNum =>
          r := ValidateAlphaNum(buff);
        case Num =>
          r := ValidateNum(cfg.entries, isNumber, buff);
      }
      if r.Fail? {
        if status != null {
          status.msg := Some(r.diag);
        }
        return 0;
      }
      return 1;
    }
  }
}
