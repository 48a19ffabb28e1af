/**
 * The validation configuration: a key -> string table owned by the caller
 * and borrowed by the validator, and the typed reads the validator makes of
 * it. An absent key reads as its default: "0" for the four numeric bounds,
 * "" for the allow-list.
 */
module Config {
  import opened CLib

  /** get(key, default) on a plain map */
  function Lookup(m: map<string, string>, key: string, default: string): (v: string)
  {
    if key in m then m[key] else default
  }

  /** The caller's table. The validator keeps a reference and reads it at each call. */
  class Hashtable {
    var entries: map<string, string>

    constructor (entries: map<string, string>)
      ensures this.entries == entries
    {
      this.entries := entries;
    }

    function Get(key: string, default: string): (v: string)
      reads this
    {
      Lookup(entries, key, default)
    }
  }

  /**
   * add then get: after add(key, value), get of that key reads value, and
   * get of any other key reads what it read before.
   */
  lemma LookupAfterAdd(m: map<string, string>, key: string, value: string, key': string, default: string)
    ensures Lookup(m[key := value], key', default) == if key' == key then value else Lookup(m, key', default)
  {
  }

  /** atoi(get("min_chars", "0")) */
  function MinChars(m: map<string, string>): (n: int) { Atoi(Lookup(m, "min_chars", "0")) }

  /** atoi(get("max_chars", "0")) */
  function MaxChars(m: map<string, string>): (n: int) { Atoi(Lookup(m, "max_chars", "0")) }

  /** get("allowed_chars", "") */
  function AllowedChars(m: map<string, string>): (s: string) { Lookup(m, "allowed_chars", "") }

  /** atof(get("min_num", "0")) */
  function MinNum(m: map<string, string>): (x: real) { Atof(Lookup(m, "min_num", "0")) }

  /** atof(get("max_num", "0")) */
  function MaxNum(m: map<string, string>): (x: real) { Atof(Lookup(m, "max_num", "0")) }

  /**
   * Every absent key reads as "no bound" / "no allow-list", and so does an
   * explicit "0" for the numeric bounds: 0 is the unbounded sentinel.
   */
  lemma AbsentKeysReadAsDefaults(m: map<string, string>)
    ensures "min_chars" !in m || m["min_chars"] == "0" ==> MinChars(m) == 0
    ensures "max_chars" !in m || m["max_chars"] == "0" ==> MaxChars(m) == 0
    ensures "allowed_chars" !in m ==> AllowedChars(m) == []
    ensures "min_num" !in m || m["min_num"] == "0" ==> MinNum(m) == 0.0
    ensures "max_num" !in m || m["max_num"] == "0" ==> MaxNum(m) == 0.0
  {
    assert IntToString(0) == "0";
    AtoiOfIntToString(0);
    AtofOfIntToString(0);
  }
}
