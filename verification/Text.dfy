/** The string helpers of the Go library that the credential and tag code relies on. */
module Text {

  /** The prefix of a bearer token in its header. */
  const SCHEME := "Bearer "

  /** Bytes of a character in UTF-8. */
  function Utf8Size(c: char): (n: nat)
    ensures 1 <= n <= 4
  {
    if c as int < 0x80 then 1 else if c as int < 0x800 then 2 else if c as int < 0x10000 then 3 else 4
  }

  /** The length the source measures: bytes, not characters. */
  function Bytes(s: string): (n: nat) {
    if s == "" then 0 else Utf8Size(s[0]) + Bytes(s[1..])
  }

  /** unicode.IsSpace. */
  predicate IsSpace(c: char) {
    c in "\t\n\r " || c as int in {0x0B, 0x0C, 0x85, 0xA0, 0x1680, 0x2028, 0x2029, 0x202F, 0x205F, 0x3000}
    || 0x2000 <= c as int <= 0x200A
  }

  function TrimLeft(s: string): string { if s != "" && IsSpace(s[0]) then TrimLeft(s[1..]) else s }

  function TrimRight(s: string): string {
    if s != "" && IsSpace(s[|s| - 1]) then TrimRight(s[..|s| - 1]) else s
  }

  /** strings.TrimSpace. */
  function Trim(s: string): string { TrimRight(TrimLeft(s)) }

  predicate Trimmed(s: string) { s != "" ==> !IsSpace(s[0]) && !IsSpace(s[|s| - 1]) }

  lemma {:induction false} TrimLeftStarts(s: string)
    ensures TrimLeft(s) != "" ==> !IsSpace(TrimLeft(s)[0])
    ensures |TrimLeft(s)| <= |s| && (TrimLeft(s) == s <==> s == "" || !IsSpace(s[0]))
  {
    if s != "" && IsSpace(s[0]) { TrimLeftStarts(s[1..]); }
  }

  lemma {:induction false} TrimRightEnds(s: string)
    ensures TrimRight(s) <= s
    ensures TrimRight(s) != "" ==> !IsSpace(TrimRight(s)[|TrimRight(s)| - 1])
    ensures TrimRight(s) == s <==> s == "" || !IsSpace(s[|s| - 1])
  {
    if s != "" && IsSpace(s[|s| - 1]) { TrimRightEnds(s[..|s| - 1]); }
  }

  /** What trimming leaves has no space at either end, and such strings are left alone. */
  lemma TrimYieldsTrimmed(s: string)
    ensures Trimmed(Trim(s))
    ensures Trim(s) == s <==> Trimmed(s)
  {
    TrimLeftStarts(s);
    TrimRightEnds(TrimLeft(s));
  }

  /** strings.TrimPrefix. */
  function TrimPrefix(s: string, p: string): string { if p <= s then s[|p|..] else s }

  lemma TrimPrefixInverse(s: string, p: string)
    ensures TrimPrefix(p + s, p) == s
    ensures p <= s ==> p + TrimPrefix(s, p) == s
  {
  }
}
