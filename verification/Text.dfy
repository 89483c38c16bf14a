/** The character classes and string methods of Python that cpplint builds on. */
module Text {
  import opened Options

  /** `\s` */
  predicate IsSpace(c: char) { c == ' ' || '\t' <= c <= '\r' }

  /** `\w` */
  predicate IsWordChar(c: char) {
    'a' <= c <= 'z' || 'A' <= c <= 'Z' || '0' <= c <= '9' || c == '_'
  }

  /** What is left of `s` without the white space at its end. */
  function StripRight(s: string): (r: string)
    ensures r <= s
  {
    if s != "" && IsSpace(s[|s| - 1]) then StripRight(s[..|s| - 1]) else s
  }

  /** The first place from `i` on that holds no white space. */
  function SkipSpaces(s: string, i: nat): (r: nat)
    requires i <= |s|
    ensures i <= r <= |s|
    decreases |s| - i
  {
    if i < |s| && IsSpace(s[i]) then SkipSpaces(s, i + 1) else i
  }

  function Strip(s: string): string {
    var t := StripRight(s);
    t[SkipSpaces(t, 0)..]
  }

  predicate OccursAt(s: string, part: string, i: nat) {
    i + |part| <= |s| && forall k | 0 <= k < |part| :: s[i + k] == part[k]
  }

  predicate StartsWith(s: string, prefix: string) { OccursAt(s, prefix, 0) }

  predicate EndsWith(s: string, suffix: string) {
    |suffix| <= |s| && OccursAt(s, suffix, |s| - |suffix|)
  }

  /** `s.find(part, from)`: the first place, or nothing. */
  function Find(s: string, part: string, from: nat): (r: Option<nat>)
    ensures r.Some? ==> from <= r.value && r.value + |part| <= |s|
    decreases |s| - from
  {
    if from > |s| then None
    else if OccursAt(s, part, from) then Some(from)
    else Find(s, part, from + 1)
  }

  /** `find` gives the first occurrence from a place on, and nothing exactly if there is none. */
  lemma {:induction false} FindIsFirst(s: string, part: string, from: nat)
    ensures var r := Find(s, part, from);
            && (r.Some? ==> from <= r.value && OccursAt(s, part, r.value))
            && forall k | from <= k && (r.Some? ==> k < r.value) :: !OccursAt(s, part, k)
    decreases |s| - from
  {
    if from <= |s| && !OccursAt(s, part, from) { FindIsFirst(s, part, from + 1); }
  }

  predicate AllSpaces(s: string) { forall i | 0 <= i < |s| :: IsSpace(s[i]) }

  lemma {:induction false} StripsRight(s: string)
    ensures var t := StripRight(s); AllSpaces(s[|t|..]) && (t != "" ==> !IsSpace(t[|t| - 1]))
  {
    if s != "" && IsSpace(s[|s| - 1]) {
      var k := |s| - 1;
      StripsRight(s[..k]);
      var t := StripRight(s);
      assert s[|t|..] == s[..k][|t|..] + [s[k]];
    }
  }

  lemma {:induction false} SkipsSpaces(s: string, i: nat)
    requires i <= |s|
    ensures var r := SkipSpaces(s, i); AllSpaces(s[i..r]) && (r < |s| ==> !IsSpace(s[r]))
    decreases |s| - i
  {
    if i < |s| && IsSpace(s[i]) { SkipsSpaces(s, i + 1); }
  }

  /** `strip` takes away the white space at both ends, and nothing else. */
  lemma StripIsInside(s: string) returns (before: string, after: string)
    ensures s == before + Strip(s) + after && AllSpaces(before) && AllSpaces(after)
    ensures Strip(s) != "" ==> !IsSpace(Strip(s)[0]) && !IsSpace(Strip(s)[|Strip(s)| - 1])
  {
    var t := StripRight(s);
    var k := SkipSpaces(t, 0);
    StripsRight(s);
    SkipsSpaces(t, 0);
    before, after := t[0..k], s[|t|..];
    assert t == before + t[k..];
  }
}
