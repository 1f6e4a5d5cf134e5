/**
 * The PHP string primitives the front end relies on: `trim`, `empty` on a
 * string, and the two `preg_match` patterns it validates with.
 */
module PhpText {
  import opened Common

  /** The characters `trim` strips by default: space, tab, newline, carriage return, NUL, vertical tab. */
  predicate IsTrimChar(c: char) {
    c == ' ' || c == '\t' || c == '\n' || c == '\r' || c == '\0' || c == 11 as char
  }

  /** Neither end of the string is a character `trim` strips. */
  predicate IsTrimmed(s: string) {
    |s| == 0 || (!IsTrimChar(s[0]) && !IsTrimChar(s[|s| - 1]))
  }

  /** `ltrim`: drops the leading run of trim characters, and only that. */
  function TrimStart(s: string): (r: string)
    ensures |r| <= |s| && r == s[|s| - |r|..]
    ensures |r| == 0 || !IsTrimChar(r[0])
  {
    if |s| > 0 && IsTrimChar(s[0]) then TrimStart(s[1..]) else s
  }

  /** `rtrim`: drops the trailing run of trim characters, and only that. */
  function TrimEnd(s: string): (r: string)
    ensures |r| <= |s| && r == s[..|r|]
    ensures |r| == 0 || !IsTrimChar(r[|r| - 1])
  {
    if |s| > 0 && IsTrimChar(s[|s| - 1]) then TrimEnd(s[..|s| - 1]) else s
  }

  /** Everything `ltrim` drops is a trim character. */
  lemma {:induction false} TrimStartDrops(s: string)
    ensures forall k :: 0 <= k < |s| - |TrimStart(s)| ==> IsTrimChar(s[k])
  {
    if |s| > 0 && IsTrimChar(s[0]) {
      TrimStartDrops(s[1..]);
      assert forall k :: 1 <= k < |s| ==> s[k] == s[1..][k - 1];
    }
  }

  /** Everything `rtrim` drops is a trim character. */
  lemma {:induction false} TrimEndDrops(s: string)
    ensures forall k :: |TrimEnd(s)| <= k < |s| ==> IsTrimChar(s[k])
  {
    if |s| > 0 && IsTrimChar(s[|s| - 1]) {
      TrimEndDrops(s[..|s| - 1]);
      assert forall k :: 0 <= k < |s| - 1 ==> s[k] == s[..|s| - 1][k];
    }
  }

  /** `trim`: the string without its leading and trailing trim characters. */
  function Trim(s: string): string {
    TrimEnd(TrimStart(s))
  }

  /**
   * `trim` keeps a contiguous middle part of its input, removes only trim
   * characters around it, and leaves a trimmed string.
   */
  lemma {:induction false} TrimSpec(s: string)
    ensures IsTrimmed(Trim(s))
    ensures var i := |s| - |TrimStart(s)|; i + |Trim(s)| <= |s| && Trim(s) == s[i..i + |Trim(s)|]
    ensures |Trim(s)| == 0 <==> forall k :: 0 <= k < |s| ==> IsTrimChar(s[k])
  {
    TrimSlice(s);
    TrimTrimmed(s);
    TrimAllTrimChars(s);
  }

  /** The kept part is the slice that starts where `ltrim` stopped. */
  lemma {:induction false} TrimSlice(s: string)
    ensures var i := |s| - |TrimStart(s)|; i + |Trim(s)| <= |s| && Trim(s) == s[i..i + |Trim(s)|]
  {
    var a := TrimStart(s);
    var i := |s| - |a|;
    SliceOfSuffix(s, i, |TrimEnd(a)|);
  }

  lemma {:induction false} SliceOfSuffix(s: string, i: nat, n: nat)
    requires i + n <= |s|
    ensures s[i..][..n] == s[i..i + n]
  {
  }

  /** Neither end of the kept part is a trim character. */
  lemma {:induction false} TrimTrimmed(s: string)
    ensures IsTrimmed(Trim(s))
  {
    var a := TrimStart(s);
    var r := TrimEnd(a);
    if |r| > 0 {
      assert r[0] == a[0];
    }
  }

  /** Nothing is left exactly when every character is a trim character. */
  lemma {:induction false} TrimAllTrimChars(s: string)
    ensures |Trim(s)| == 0 <==> forall k :: 0 <= k < |s| ==> IsTrimChar(s[k])
  {
    var a := TrimStart(s);
    TrimStartDrops(s);
    TrimEndDrops(a);
    if |a| > 0 {
      var i := |s| - |a|;
      assert a[0] == s[i];
      assert TrimEnd(a)[0] == a[0];
    }
  }

  /** Trimming twice is trimming once. */
  lemma {:induction false} TrimIdempotent(s: string)
    ensures Trim(Trim(s)) == Trim(s)
  {
    TrimSpec(s);
    TrimOfTrimmed(Trim(s));
  }

  /** A trimmed string is left as it is. */
  lemma {:induction false} TrimOfTrimmed(s: string)
    requires IsTrimmed(s)
    ensures Trim(s) == s
  {
  }

  /** PHP `empty()` on a string: true for "" and for "0". */
  predicate PhpEmpty(s: string) {
    s == "" || s == "0"
  }

  // ---------------------------------------------------------------------------
  // The two patterns. Without the D modifier, PCRE's `$` matches at the end of
  // the subject or just before a newline that ends it.
  // ---------------------------------------------------------------------------

  /** What `^\d+` followed by the end of the subject matches. */
  predicate UuidBody(s: string) {
    |s| > 0 && AllDigits(s)
  }

  /** `preg_match('/^\d+$/', s)`. */
  predicate UuidPattern(s: string) {
    UuidBody(s) || (|s| > 0 && s[|s| - 1] == '\n' && UuidBody(s[..|s| - 1]))
  }

  /** `[1-9]\d{1,14}`: 2 to 15 digits, the first not 0. */
  predicate PhoneDigits(d: string) {
    2 <= |d| <= 15 && '1' <= d[0] <= '9' && AllDigits(d)
  }

  /** What `^\+?[1-9]\d{1,14}` followed by the end of the subject matches. */
  predicate PhoneBody(s: string) {
    PhoneDigits(s) || (|s| > 0 && s[0] == '+' && PhoneDigits(s[1..]))
  }

  /** `preg_match('/^\+?[1-9]\d{1,14}$/', s)`. */
  predicate PhonePattern(s: string) {
    PhoneBody(s) || (|s| > 0 && s[|s| - 1] == '\n' && PhoneBody(s[..|s| - 1]))
  }

  /**
   * On a trimmed string the final-newline allowance of `$` never applies: the
   * uuid pattern accepts exactly the non-empty ASCII digit strings, and the
   * phone pattern exactly an optional `+`, a digit 1-9 and 1 to 14 more digits.
   */
  lemma {:induction false} TrimmedPatterns(s: string)
    requires IsTrimmed(s)
    ensures UuidPattern(s) <==> |s| > 0 && AllDigits(s)
    ensures PhonePattern(s) <==>
              var d := if |s| > 0 && s[0] == '+' then s[1..] else s;
              2 <= |d| <= 15 && d[0] != '0' && AllDigits(d)
  {
    if |s| > 0 && s[0] == '+' {
      assert !PhoneDigits(s);
    }
  }

  /** A trailing newline would have slipped through the uuid pattern had the value not been trimmed. */
  lemma DollarAcceptsFinalNewline()
    ensures UuidPattern("42\n") && !UuidBody("42\n")
    ensures Trim("42\n") == "42"
  {
    assert "42\n"[..2] == "42";
    assert !IsTrimChar('4');
    assert TrimStart("42\n") == "42\n";
    assert "42\n"[..2] == "42";
    assert TrimEnd("42\n") == TrimEnd("42");
  }
}
