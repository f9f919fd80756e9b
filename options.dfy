/**
 * The JIT's command-line options (yjit/src/options.rs): the options record
 * with its defaults, and `parse_option`, which reads one `name=value` string
 * and updates the global record in place.
 */
module Options {
  import opened Wrappers
  import opened Utils
  import opened Text

  /** The `Options` struct. It is `Copy` and `Eq`, so it is a value. */
  datatype Options = Options(
    execMemSize: nat,       // size of the executable memory block, in MiB
    callThreshold: nat,     // calls before code is generated
    greedyVersioning: bool,
    noTypeProp: bool,
    maxVersions: nat,       // versions per block
    genStats: bool)

  /** The initial value of the `OPTIONS` static. */
  const DEFAULT_OPTIONS: Options := Options(256, 10, false, false, 4, false)

  /** Every option value that fits the struct's `usize` fields on a 64-bit target. */
  predicate Representable(o: Options) {
    o.execMemSize < U64_LIMIT && o.callThreshold < U64_LIMIT && o.maxVersions < U64_LIMIT
  }

  /** Whether two records agree on every field except possibly one. */
  predicate DifferInAtMostOneField(a: Options, b: Options) {
    (if a.execMemSize != b.execMemSize then 1 else 0)
    + (if a.callThreshold != b.callThreshold then 1 else 0)
    + (if a.greedyVersioning != b.greedyVersioning then 1 else 0)
    + (if a.noTypeProp != b.noTypeProp then 1 else 0)
    + (if a.maxVersions != b.maxVersions then 1 else 0)
    + (if a.genStats != b.genStats then 1 else 0)
    <= 1
  }

  /** The names `parse_option` recognises. */
  predicate KnownOptionName(name: string) {
    || name == "exec-mem-size" || name == "call-threshold" || name == "max-versions"
    || name == "greedy-versioning" || name == "no-type-prop" || name == "stats"
  }

  // ---------------------------------------------------------------------
  // Splitting `name=value`

  /** `str::split_once(c)`: the text before and after the first `c`, if there is one. */
  function SplitOnce(s: string, c: char): (r: Option<(string, string)>)
    ensures r.None? <==> c !in s
    ensures r.Some? ==> r.value.0 + [c] + r.value.1 == s && c !in r.value.0
  {
    var k := FindCharFrom(s, c, 0);
    if k == |s| then None
    else
      assert s == s[..k] + [c] + s[k + 1..];
      Some((s[..k], s[k + 1..]))
  }

  /** The option name and value: split at the first `=`; without one, all of it is the name. */
  function OptionParts(s: string): (r: (string, string))
    ensures '=' !in r.0
    ensures '=' in s ==> r.0 + "=" + r.1 == s
    ensures '=' !in s ==> r.0 == s && r.1 == ""
  {
    match SplitOnce(s, '=')
    case Some(parts) => parts
    case None => (s, "")
  }

  // ---------------------------------------------------------------------
  // `str::parse::<usize>()` on a 64-bit target

  predicate IsDigit(ch: char) {
    '0' <= ch <= '9'
  }

  function DigitValue(ch: char): (d: nat)
    requires IsDigit(ch)
    ensures d < 10
  {
    (ch as int) - ('0' as int)
  }

  function DigitChar(d: nat): (ch: char)
    requires d < 10
    ensures IsDigit(ch) && DigitValue(ch) == d
  {
    (('0' as int) + d) as char
  }

  predicate AllDigits(s: string) {
    forall i :: 0 <= i < |s| ==> IsDigit(s[i])
  }

  /** The number a string of decimal digits spells, most significant first. */
  function DigitsValue(s: string): nat
    requires AllDigits(s)
  {
    if |s| == 0 then 0 else DigitsValue(s[..|s| - 1]) * 10 + DigitValue(s[|s| - 1])
  }

  /**
   * Rust's unsigned `from_str`: an optional `+`, then at least one decimal
   * digit, and a value below 2^64; anything else (the empty string, a lone
   * sign, a `-`, any other character, an overflow) is an error.
   */
  function ParseUsize(s: string): (r: Option<nat>)
    ensures r.Some? ==> r.value < U64_LIMIT
    ensures s == "" ==> r.None?
  {
    var digits := if |s| > 0 && s[0] == '+' then s[1..] else s;
    if |digits| == 0 || !AllDigits(digits) then None
    else if DigitsValue(digits) < U64_LIMIT then Some(DigitsValue(digits))
    else None
  }

  /** The shortest decimal spelling of `n`. */
  function DecimalString(n: nat): (s: string)
    ensures |s| > 0 && AllDigits(s)
  {
    if n < 10 then [DigitChar(n)] else DecimalString(n / 10) + [DigitChar(n % 10)]
  }

  lemma {:induction false} DecimalStringValue(n: nat)
    ensures DigitsValue(DecimalString(n)) == n
  {
    if n >= 10 {
      var s := DecimalString(n);
      assert s[..|s| - 1] == DecimalString(n / 10);
      DecimalStringValue(n / 10);
    }
  }

  /** Every representable number survives printing and parsing back. */
  lemma ParseUsizeRoundTrip(n: nat)
    requires n < U64_LIMIT
    ensures ParseUsize(DecimalString(n)) == Some(n)
  {
    DecimalStringValue(n);
  }

  /** A parse that succeeds read a `+`-prefixed or bare run of digits spelling the result. */
  lemma ParseUsizeAccepts(s: string, n: nat)
    requires ParseUsize(s) == Some(n)
    ensures var digits := if s[0] == '+' then s[1..] else s;
            |digits| > 0 && AllDigits(digits) && DigitsValue(digits) == n
  {
  }

  // ---------------------------------------------------------------------
  // The global options and `parse_option`

  class GlobalOptions {
    /** The `OPTIONS` static. */
    var current: Options

    constructor ()
      ensures current == DEFAULT_OPTIONS
    {
      current := DEFAULT_OPTIONS;
    }

    /**
     * `parse_option`: the numeric options store the parsed number, the flag
     * options set their flag only when given no value, and anything else,
     * including a bad number or a flag given a value, answers false and
     * leaves the record as it was.
     */
    method ParseOption(optStr: string) returns (ok: bool)
      modifies this
      ensures OptionParts(optStr).0 == "exec-mem-size" ==>
        var n := ParseUsize(OptionParts(optStr).1);
        ok == n.Some? && current == if ok then old(current).(execMemSize := n.value) else old(current)
      ensures OptionParts(optStr).0 == "call-threshold" ==>
        var n := ParseUsize(OptionParts(optStr).1);
        ok == n.Some? && current == if ok then old(current).(callThreshold := n.value) else old(current)
      ensures OptionParts(optStr).0 == "max-versions" ==>
        var n := ParseUsize(OptionParts(optStr).1);
        ok == n.Some? && current == if ok then old(current).(maxVersions := n.value) else old(current)
      ensures OptionParts(optStr).0 == "greedy-versioning" ==>
        ok == (OptionParts(optStr).1 == "") &&
        current == if ok then old(current).(greedyVersioning := true) else old(current)
      ensures OptionParts(optStr).0 == "no-type-prop" ==>
        ok == (OptionParts(optStr).1 == "") &&
        current == if ok then old(current).(noTypeProp := true) else old(current)
      ensures OptionParts(optStr).0 == "stats" ==>
        ok == (OptionParts(optStr).1 == "") &&
        current == if ok then old(current).(genStats := true) else old(current)
      ensures !KnownOptionName(OptionParts(optStr).0) ==> !ok && current == old(current)
      ensures !ok ==> current == old(current)
      ensures DifferInAtMostOneField(old(current), current)
      ensures Representable(old(current)) ==> Representable(current)
    {
      var parts := OptionParts(optStr);
      var name, val := parts.0, parts.1;
      if name == "exec-mem-size" {
        var n := ParseUsize(val);
        if n.None? { return false; }
        current := current.(execMemSize := n.value);
      } else if name == "call-threshold" {
        var n := ParseUsize(val);
        if n.None? { return false; }
        current := current.(callThreshold := n.value);
      } else if name == "max-versions" {
        var n := ParseUsize(val);
        if n.None? { return false; }
        current := current.(maxVersions := n.value);
      } else if name == "greedy-versioning" && val == "" {
        current := current.(greedyVersioning := true);
      } else if name == "no-type-prop" && val == "" {
        current := current.(noTypeProp := true);
      } else if name == "stats" && val == "" {
        current := current.(genStats := true);
      } else {
        return false;
      }
      ok := true;
    }
  }

  /** Joining a name without `=` to a value with `=` and splitting again gives both back. */
  lemma OptionPartsRoundTrip(name: string, val: string)
    requires '=' !in name
    ensures OptionParts(name + "=" + val) == (name, val)
  {
    var s := name + "=" + val;
    FindCharFromUnique(s, '=', 0, |name|);
    assert s[..|name|] == name;
    assert s[|name| + 1..] == val;
  }

  /** `stats=1` names a flag but gives it a value, so `parse_option` refuses it. */
  method StatsWithValueRejected(g: GlobalOptions) returns (ok: bool)
    modifies g
    ensures !ok && g.current == old(g.current)
  {
    OptionPartsRoundTrip("stats", "1");
    assert "stats" + "=" + "1" == "stats=1";
    ok := g.ParseOption("stats=1");
  }
}
