/** Text as the services see it: Unicode white space, and lengths in bytes of UTF-8. */
module Text {

  /** The white space of the Unicode standard. */
  predicate Space(ch: char) {
    var n := ch as int;
    || 9 <= n <= 13 || n == 32 || n == 0x85 || n == 0xA0 || n == 0x1680 || 0x2000 <= n <= 0x200A
    || n == 0x2028 || n == 0x2029 || n == 0x202F || n == 0x205F || n == 0x3000
  }

  predicate Blank(s: string) {
    forall ch | ch in s :: Space(ch)
  }

  function TrimLeft(s: string): string {
    if s != "" && Space(s[0]) then TrimLeft(s[1..]) else s
  }

  function TrimRight(s: string): string {
    if s != "" && Space(s[|s| - 1]) then TrimRight(s[..|s| - 1]) else s
  }

  function Trim(s: string): string {
    TrimRight(TrimLeft(s))
  }

  /** Trimming takes white space off both ends and nothing else. */
  lemma TrimIs(s: string)
    ensures exists left, right ::
              && s == left + Trim(s) + right && Blank(left) && Blank(right)
              && (Trim(s) != "" ==> !Space(Trim(s)[0]) && !Space(Trim(s)[|Trim(s)| - 1]))
  {
    var left := LeftTrimmed(s);
    var right := RightTrimmed(TrimLeft(s));
    assert s == left + Trim(s) + right;
  }

  lemma {:induction false} LeftTrimmed(s: string) returns (left: string)
    ensures s == left + TrimLeft(s) && Blank(left) && (TrimLeft(s) != "" ==> !Space(TrimLeft(s)[0]))
  {
    left := "";
    if s != "" && Space(s[0]) {
      var rest := LeftTrimmed(s[1..]);
      left := [s[0]] + rest;
    }
  }

  lemma {:induction false} RightTrimmed(s: string) returns (right: string)
    ensures s == TrimRight(s) + right && Blank(right)
    ensures TrimRight(s) != "" ==> !Space(TrimRight(s)[|TrimRight(s)| - 1]) && TrimRight(s)[0] == s[0]
  {
    right := "";
    if s != "" && Space(s[|s| - 1]) {
      var rest := RightTrimmed(s[..|s| - 1]);
      right := rest + [s[|s| - 1]];
    }
  }

  /** The 25 characters that are white space. */
  lemma SpacesAre(ch: char)
    ensures Space(ch) <==> ch as int in {0x09, 0x0A, 0x0B, 0x0C, 0x0D, 0x20, 0x85, 0xA0, 0x1680, 0x2000, 0x2001, 0x2002,
                                         0x2003, 0x2004, 0x2005, 0x2006, 0x2007, 0x2008, 0x2009, 0x200A, 0x2028, 0x2029,
                                         0x202F, 0x205F, 0x3000}
  {
  }

  /** The bytes of one character in UTF-8: a leading byte that tells their number, then six bits each. */
  function Utf8(ch: char): seq<nat> {
    var n := ch as int;
    if n <= 0x7F then [n]
    else if n / 64 <= 0x1F then [0xC0 + n / 64, 0x80 + n % 64]
    else if n / 4096 <= 0xF then [0xE0 + n / 4096, 0x80 + n / 64 % 64, 0x80 + n % 64]
    else [0xF0 + n / 262144, 0x80 + n / 4096 % 64, 0x80 + n / 64 % 64, 0x80 + n % 64]
  }

  function Encoded(s: string): seq<nat> {
    if s == "" then [] else Utf8(s[0]) + Encoded(s[1..])
  }

  /** The length of a text is that of its encoding. */
  lemma {:induction false} BytesAreEncoded(s: string)
    ensures Bytes(s) == |Encoded(s)|
  {
    if s != "" {
      BytesAreEncoded(s[1..]);
    }
  }

  function Width(ch: char): nat {
    var n := ch as int;
    if n < 0x80 then 1 else if n < 0x800 then 2 else if n < 0x10000 then 3 else 4
  }

  function Bytes(s: string): (n: nat)
    ensures |s| <= n <= 4 * |s|
  {
    if s == "" then 0 else Width(s[0]) + Bytes(s[1..])
  }
}
