/** Character classes and the string operations the app applies to user
    input and timestamps: `replace(/\D/g, '')`, `replace(/[^a-zA-Z0-9]/g, '')`,
    `startsWith` and `split('T')[0]`. */
module Text {
  import opened Folds

  /** `\d` in a JavaScript regular expression without the `u` flag. */
  predicate IsDigit(c: char) { '0' <= c <= '9' }

  /** The class `[a-zA-Z0-9]`. */
  predicate IsAlnum(c: char) { 'a' <= c <= 'z' || 'A' <= c <= 'Z' || '0' <= c <= '9' }

  predicate AllDigits(s: string) { forall i :: 0 <= i < |s| ==> IsDigit(s[i]) }

  predicate AllAlnum(s: string) { forall i :: 0 <= i < |s| ==> IsAlnum(s[i]) }

  /** `s.replace(/\D/g, '')`: every non-digit removed. */
  function KeepDigits(s: string): (r: string)
    ensures AllDigits(r) && |r| <= |s|
    ensures AllDigits(s) ==> r == s
  {
    var r := Filter(s, IsDigit);
    assert forall i :: 0 <= i < |r| ==> r[i] in r;
    if AllDigits(s) then
      assert forall c :: c in s ==> IsDigit(c);
      FilterAll(s, IsDigit);
      r
    else
      r
  }

  /** `s.replace(/[^a-zA-Z0-9]/g, '')`: every character outside [A-Za-z0-9] removed. */
  function KeepAlnum(s: string): (r: string)
    ensures AllAlnum(r) && |r| <= |s|
    ensures AllAlnum(s) ==> r == s
  {
    var r := Filter(s, IsAlnum);
    assert forall i :: 0 <= i < |r| ==> r[i] in r;
    if AllAlnum(s) then
      assert forall c :: c in s ==> IsAlnum(c);
      FilterAll(s, IsAlnum);
      r
    else
      r
  }

  /** Sanitising an already sanitised value changes nothing. */
  lemma KeepDigitsIdempotent(s: string)
    ensures KeepDigits(KeepDigits(s)) == KeepDigits(s)
  {
  }

  /** Sanitising keeps every digit, in order: it distributes over concatenation. */
  lemma KeepDigitsAppend(a: string, b: string)
    ensures KeepDigits(a + b) == KeepDigits(a) + KeepDigits(b)
  {
    FilterAppend(a, b, IsDigit);
  }

  predicate StartsWith(s: string, prefix: string)
  {
    |prefix| <= |s| && s[..|prefix|] == prefix
  }

  /** `s.split('T')[0]`: everything before the first 'T', or all of `s` when it has none. */
  function DatePart(s: string): (r: string)
    ensures StartsWith(s, r)
    ensures 'T' !in r
    ensures |r| < |s| ==> s[|r|] == 'T'
  {
    if s == [] || s[0] == 'T' then [] else [s[0]] + DatePart(s[1..])
  }

  /** `split('T')[0]` ends at the first 'T', or takes everything without one. */
  lemma DatePartUpTo(s: string, k: nat)
    requires k <= |s| && (k == |s| || s[k] == 'T')
    requires forall i :: 0 <= i < k ==> s[i] != 'T'
    ensures DatePart(s) == s[..k]
  {
  }
}
