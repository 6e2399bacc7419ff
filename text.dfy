/** The string operations the controllers rely on: JavaScript's trim, the
    capitalisation of a type name, joining messages, and the way Mongoose
    reads a 24-character hexadecimal ObjectId. */
module Text {

  /** The characters String.prototype.trim removes (WhiteSpace and LineTerminator). */
  predicate IsSpace(c: char) {
    c == ' ' || ('\t' <= c <= '\r') || (c >= '\U{A0}' && WideSpace(c))
  }

  predicate WideSpace(c: char) {
    c == '\U{A0}' || c == '\U{1680}' || ('\U{2000}' <= c <= '\U{200A}')
    || c == '\U{2028}' || c == '\U{2029}' || c == '\U{202F}' || c == '\U{205F}'
    || c == '\U{3000}' || c == '\U{FEFF}'
  }

  /** String.prototype.trim: s without its leading and trailing spaces. */
  function Trim(s: string): (r: string)
    ensures |r| <= |s|
  {
    if s == [] then s
    else if IsSpace(s[0]) then Trim(s[1..])
    else if IsSpace(s[|s| - 1]) then Trim(s[..|s| - 1])
    else s
  }

  /** Number of spaces at the start of s. */
  function LeadingSpaces(s: string): (n: nat)
    ensures n <= |s|
    ensures forall k :: 0 <= k < n ==> IsSpace(s[k])
    ensures n < |s| ==> !IsSpace(s[n])
  {
    if s != [] && IsSpace(s[0]) then 1 + LeadingSpaces(s[1..]) else 0
  }

  /** What trim keeps neither starts nor ends with a space. */
  lemma {:induction false} TrimEnds(s: string)
    ensures var r := Trim(s);
            r == [] || (!IsSpace(r[0]) && !IsSpace(r[|r| - 1]))
  {
    if s != [] && IsSpace(s[0]) {
      TrimEnds(s[1..]);
    } else if s != [] && IsSpace(s[|s| - 1]) {
      TrimEnds(s[..|s| - 1]);
    }
  }

  /** trim removes exactly the spaces at both ends: what it keeps is the
      infix of s after the leading spaces, and only spaces follow it. */
  lemma TrimSpec(s: string)
    ensures var r := Trim(s);
            && LeadingSpaces(s) + |r| <= |s|
            && r == s[LeadingSpaces(s)..LeadingSpaces(s) + |r|]
            && forall k :: LeadingSpaces(s) + |r| <= k < |s| ==> IsSpace(s[k])
  {
    TrimInfix(s);
    TrimTrailing(s);
  }

  /** What trim keeps starts after the leading spaces. */
  lemma {:induction false} TrimInfix(s: string)
    ensures LeadingSpaces(s) + |Trim(s)| <= |s|
    ensures Trim(s) == s[LeadingSpaces(s)..LeadingSpaces(s) + |Trim(s)|]
  {
    if s == [] {
    } else if IsSpace(s[0]) {
      TrimInfix(s[1..]);
    } else if IsSpace(s[|s| - 1]) {
      var p := s[..|s| - 1];
      TrimInfix(p);
      assert p[0] == s[0];
    }
  }

  /** Only spaces follow what trim keeps. */
  lemma {:induction false} TrimTrailing(s: string)
    ensures LeadingSpaces(s) + |Trim(s)| <= |s|
    ensures forall k :: LeadingSpaces(s) + |Trim(s)| <= k < |s| ==> IsSpace(s[k])
  {
    if s == [] {
    } else if IsSpace(s[0]) {
      TrimTrailing(s[1..]);
    } else if IsSpace(s[|s| - 1]) {
      var p := s[..|s| - 1];
      TrimTrailing(p);
      assert p[0] == s[0];
    }
  }

  /** Trimming a trimmed string changes nothing. */
  lemma TrimIdempotent(s: string)
    ensures Trim(Trim(s)) == Trim(s)
  {
    TrimEnds(s);
  }

  /** String.prototype.length: the number of UTF-16 code units, two for a
      character outside the Basic Multilingual Plane. */
  function Utf16Length(s: string): (n: nat)
    ensures |s| <= n <= 2 * |s|
  {
    if s == [] then 0 else (if s[0] as int > 0xFFFF then 2 else 1) + Utf16Length(s[1..])
  }

  /** ASCII upper-casing of one character. */
  function UpperAscii(c: char): char {
    if 'a' <= c <= 'z' then (c as int - 32) as char else c
  }

  /** ASCII lower-casing of one character. */
  function LowerAscii(c: char): char {
    if 'A' <= c <= 'Z' then (c as int + 32) as char else c
  }

  /** s.charAt(0).toUpperCase() + s.slice(1) */
  function Capitalize(s: string): string {
    if s == [] then s else [UpperAscii(s[0])] + s[1..]
  }

  /** Array.prototype.join(sep). */
  function Join(parts: seq<string>, sep: string): string {
    if parts == [] then ""
    else if |parts| == 1 then parts[0]
    else parts[0] + sep + Join(parts[1..], sep)
  }

  predicate IsHexDigit(c: char) {
    '0' <= c <= '9' || 'a' <= c <= 'f' || 'A' <= c <= 'F'
  }

  /** A string of 24 hexadecimal digits: what ObjectId.isValid accepts and
      what a query on `_id` can cast, leaving 12-character strings aside. */
  predicate IsObjectIdString(s: string) {
    |s| == 24 && forall k :: 0 <= k < |s| ==> IsHexDigit(s[k])
  }

  /** The id a query on `_id` matches once Mongoose has cast the string to an
      ObjectId: hexadecimal digits in either case denote the same bytes, and
      an ObjectId prints in lower case. */
  function CanonicalId(s: string): (r: string)
    ensures |r| == |s|
  {
    if s == [] then [] else [LowerAscii(s[0])] + CanonicalId(s[1..])
  }

  /** The cast lower-cases each character and keeps its position. */
  lemma {:induction false} CanonicalIdChars(s: string)
    ensures forall k :: 0 <= k < |s| ==> CanonicalId(s)[k] == LowerAscii(s[k])
  {
    if s != [] {
      CanonicalIdChars(s[1..]);
    }
  }
}
