/**
 * Phone-number clean-up shared by the WhatsApp channel and the risk
 * notifications: `replace(/[\s\-\(\)]/g, '')`.
 */
module Phone {
  import opened Seqs

  /** The characters the regular-expression class `\s` matches. */
  predicate IsJsWhitespace(c: char)
  {
    ('\U{9}' <= c <= '\U{D}') || c == ' ' || c == '\U{A0}' || c == '\U{1680}' ||
    ('\U{2000}' <= c <= '\U{200A}') || c == '\U{2028}' || c == '\U{2029}' || c == '\U{202F}' ||
    c == '\U{205F}' || c == '\U{3000}' || c == '\U{FEFF}'
  }

  /** A character the clean-up removes: whitespace, `-`, `(` or `)`. */
  predicate IsNoise(c: char)
  {
    IsJsWhitespace(c) || c == '-' || c == '(' || c == ')'
  }

  predicate Kept(c: char)
  {
    !IsNoise(c)
  }

  predicate Clean(s: string)
  {
    forall i :: 0 <= i < |s| ==> Kept(s[i])
  }

  /** `s.replace(/[\s\-\(\)]/g, '')`. */
  function StripNoise(s: string): (r: string)
    ensures Clean(r)
    ensures |r| <= |s|
    ensures forall i :: 0 <= i < |s| && Kept(s[i]) ==> s[i] in r
    ensures forall i :: 0 <= i < |r| ==> r[i] in s
  {
    FilterMembers(s, Kept);
    Filter(s, Kept)
  }

  /** Cleaning clean text changes nothing, so cleaning twice is cleaning once. */
  lemma StripClean(s: string)
    requires Clean(s)
    ensures StripNoise(s) == s
  {
    FilterAllPass(s, Kept);
  }

  lemma StripAppend(a: string, b: string)
    ensures StripNoise(a + b) == StripNoise(a) + StripNoise(b)
  {
    FilterAppend(a, b, Kept);
  }

  lemma CleanAppend(a: string, b: string)
    requires Clean(a) && Clean(b)
    ensures Clean(a + b)
  {
    assert forall i :: 0 <= i < |a + b| ==> (a + b)[i] == (if i < |a| then a[i] else b[i - |a|]);
  }

  /** Only digits and `+` signs. */
  predicate Dialable(s: string)
  {
    |s| == 0 || ((s[0] == '+' || '0' <= s[0] <= '9') && Dialable(s[1..]))
  }

  /** A string of digits and `+` signs is already clean. */
  lemma {:induction false} DialableIsClean(s: string)
    requires Dialable(s)
    ensures Clean(s)
  {
    if |s| > 0 {
      DialableIsClean(s[1..]);
      assert forall i :: 1 <= i < |s| ==> s[i] == s[1..][i - 1];
    }
  }

  const WHATSAPP_PREFIX: string := "whatsapp:"

  lemma PrefixIsClean()
    ensures Clean(WHATSAPP_PREFIX) && Clean("whatsapp:+") && Clean("+")
  {
  }
}
