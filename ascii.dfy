/**
 * The two character-level string operations the user list relies on when it
 * derives a username: `replace(/\s+/g, '')` and `toUpperCase()`, restricted
 * to ASCII.
 */
module Ascii {

  /** JavaScript's `\s` on ASCII: space, tab, line feed, vertical tab, form feed, carriage return. */
  predicate IsWhitespace(c: char) {
    c == ' ' || c == '\t' || c == '\n' || c == '\U{0B}' || c == '\U{0C}' || c == '\r'
  }

  predicate IsLower(c: char) {
    'a' <= c <= 'z'
  }

  predicate IsUpper(c: char) {
    'A' <= c <= 'Z'
  }

  /** `toUpperCase` on one ASCII character: letters a-z move to A-Z, everything else stays. */
  function Upper(c: char): (u: char)
    ensures !IsLower(u)
    ensures IsLower(c) ==> IsUpper(u) && u as int + 32 == c as int
    ensures !IsLower(c) ==> u == c
    ensures IsWhitespace(u) <==> IsWhitespace(c)
  {
    if IsLower(c) then (c as int - 32) as char else c
  }

  /** `s.toUpperCase()`: every character upper-cased, position by position. */
  function ToUpper(s: string): (r: string)
    ensures |r| == |s|
    ensures forall i :: 0 <= i < |s| ==> r[i] == Upper(s[i])
    ensures forall i :: 0 <= i < |r| ==> !IsLower(r[i])
  {
    seq(|s|, i requires 0 <= i < |s| => Upper(s[i]))
  }

  /** `s.replace(/\s+/g, '')`: every run of whitespace removed, the other characters kept in order. */
  function StripWhitespace(s: string): (r: string)
    ensures |r| <= |s|
    ensures forall i :: 0 <= i < |r| ==> !IsWhitespace(r[i])
    ensures (forall i :: 0 <= i < |s| ==> !IsWhitespace(s[i])) ==> r == s
  {
    if s == [] then []
    else if IsWhitespace(s[0]) then StripWhitespace(s[1..])
    else [s[0]] + StripWhitespace(s[1..])
  }

  /** Removing whitespace distributes over concatenation, so no character changes place relative to another. */
  lemma {:induction false} StripAppend(a: string, b: string)
    ensures StripWhitespace(a + b) == StripWhitespace(a) + StripWhitespace(b)
  {
    if a == [] {
      assert a + b == b;
    } else {
      assert (a + b)[1..] == a[1..] + b;
      StripAppend(a[1..], b);
    }
  }

  /** The stripped string holds exactly the characters of the original that are not whitespace. */
  lemma {:induction false} StripMembers(s: string, c: char)
    ensures c in StripWhitespace(s) <==> c in s && !IsWhitespace(c)
  {
    if s != [] {
      assert s == [s[0]] + s[1..];
      StripMembers(s[1..], c);
    }
  }

  /** Upper-casing never creates or removes whitespace, so it commutes with stripping it. */
  lemma {:induction false} StripUpperCommute(s: string)
    ensures StripWhitespace(ToUpper(s)) == ToUpper(StripWhitespace(s))
  {
    if s != [] {
      assert ToUpper(s)[1..] == ToUpper(s[1..]);
      StripUpperCommute(s[1..]);
      if !IsWhitespace(s[0]) {
        assert ToUpper([s[0]] + StripWhitespace(s[1..])) == [Upper(s[0])] + ToUpper(StripWhitespace(s[1..]));
      }
    }
  }

  /** Upper-casing twice is upper-casing once. */
  lemma ToUpperIdempotent(s: string)
    ensures ToUpper(ToUpper(s)) == ToUpper(s)
  {
  }

  /** Helper for the worked example: removing whitespace from five joined pieces removes it from each piece. */
  lemma StripJoin5(a: string, b: string, c: string, d: string, e: string)
    ensures StripWhitespace(a + b + c + d + e)
         == StripWhitespace(a) + StripWhitespace(b) + StripWhitespace(c) + StripWhitespace(d) + StripWhitespace(e)
  {
    StripAppend(a, b);
    StripAppend(a + b, c);
    StripAppend(a + b + c, d);
    StripAppend(a + b + c + d, e);
  }

  /** The pieces of "John Q Public": the words have no whitespace, a space is nothing but whitespace. */
  lemma StripExamplePieces()
    ensures StripWhitespace("John") == "John" && StripWhitespace("Q") == "Q"
    ensures StripWhitespace("Public") == "Public" && StripWhitespace(" ") == ""
  {
    assert " "[1..] == [];
  }

  /** The whitespace of "John Q Public" removed is "JohnQPublic". */
  lemma StripExample(name: string)
    requires name == "John" + " " + "Q" + " " + "Public"
    ensures StripWhitespace(name) == "JohnQPublic"
  {
    StripJoin5("John", " ", "Q", " ", "Public");
    StripExamplePieces();
  }
}
