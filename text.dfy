/** Character search over strings, shared by the option splitter and the constant-path tokenizer. */
module Text {

  /** Index of the first `c` in `s` at or after `from`, or `|s|` when there is none. */
  function FindCharFrom(s: string, c: char, from: nat): (k: nat)
    requires from <= |s|
    ensures from <= k <= |s|
    ensures k < |s| ==> s[k] == c
    ensures forall i :: from <= i < k ==> s[i] != c
    decreases |s| - from
  {
    if from == |s| || s[from] == c then from else FindCharFrom(s, c, from + 1)
  }

  /** The three properties in `FindCharFrom`'s contract pin the index down. */
  lemma FindCharFromUnique(s: string, c: char, from: nat, k: nat)
    requires from <= k <= |s|
    requires k < |s| ==> s[k] == c
    requires forall i :: from <= i < k ==> s[i] != c
    ensures FindCharFrom(s, c, from) == k
  {
  }

  /** Searching in `a + b` from inside `b` is searching in `b`, shifted by `|a|`. */
  lemma FindCharFromShift(a: string, b: string, c: char, k: nat)
    requires k <= |b|
    ensures FindCharFrom(a + b, c, |a| + k) == |a| + FindCharFrom(b, c, k)
  {
    var r := FindCharFrom(b, c, k);
    forall i | |a| + k <= i < |a| + r
      ensures (a + b)[i] != c
    {
      assert (a + b)[i] == b[i - |a|];
    }
    FindCharFromUnique(a + b, c, |a| + k, |a| + r);
  }
}
