/** Small datatypes and string predicates shared by the other modules. */
module Common {

  datatype Option<T> = None | Some(value: T)

  datatype Result<T, E> = Ok(value: T) | Err(error: E)

  /** An ASCII decimal digit: what `\d` matches in a PCRE pattern without the `u` flag. */
  predicate IsDigit(c: char) {
    '0' <= c <= '9'
  }

  predicate AllDigits(s: string) {
    forall i :: 0 <= i < |s| ==> IsDigit(s[i])
  }

  predicate StartsWith(s: string, prefix: string) {
    |prefix| <= |s| && s[..|prefix|] == prefix
  }

  predicate EndsWith(s: string, suffix: string) {
    |suffix| <= |s| && s[|s| - |suffix|..] == suffix
  }

  /** A string that ends with `a + b` also ends with `b`. */
  lemma {:induction false} EndsWithTail(s: string, a: string, b: string)
    requires EndsWith(s, a + b)
    ensures EndsWith(s, b)
  {
    var n := |s| - |a + b|;
    assert s[n..] == a + b;
    assert s[|s| - |b|..] == s[n..][|a|..];
  }

  /** A string of length `|a| + |b|` that starts with `a` and ends with `b` is `a + b`. */
  lemma {:induction false} PrefixAndSuffix(s: string, a: string, b: string)
    requires StartsWith(s, a) && EndsWith(s, b) && |s| == |a| + |b|
    ensures s == a + b
  {
    assert s == s[..|a|] + s[|a|..];
  }
}
