/** The name policy of the registry: 3 to 64 bytes, each character an ASCII
    digit, an ASCII lowercase letter, `.`, `-` or `_`. */
module Validation {
  import opened Types

  const MinNameLength: nat := 3
  const MaxNameLength: nat := 64

  /** Number of bytes `c` takes in UTF-8. */
  function Utf8Width(c: char): (w: nat)
    ensures 1 <= w <= 4
    ensures w == 1 <==> c as int < 0x80
  {
    if c as int < 0x80 then 1
    else if c as int < 0x800 then 2
    else if c as int < 0x1_0000 then 3
    else 4
  }

  predicate IsAscii(s: string) {
    forall i :: 0 <= i < |s| ==> s[i] as int < 0x80
  }

  /** Length of `s` in UTF-8 bytes, which is what the length checks measure.
      It equals the number of characters exactly when `s` is ASCII. */
  function Utf8Len(s: string): (n: nat)
    ensures |s| <= n <= 4 * |s|
    ensures n == |s| <==> IsAscii(s)
  {
    if s == [] then 0
    else
      assert IsAscii(s) <==> s[0] as int < 0x80 && IsAscii(s[1..]) by {
        if s[0] as int < 0x80 && IsAscii(s[1..]) {
          forall i | 0 <= i < |s| ensures s[i] as int < 0x80 {
            if i > 0 { assert s[i] == s[1..][i - 1]; }
          }
        }
      }
      Utf8Width(s[0]) + Utf8Len(s[1..])
  }

  /** A name made of `n` copies of `c` is `n` times as long in bytes as `c`. */
  lemma {:induction false} Utf8LenRepeat(c: char, n: nat)
    ensures Utf8Len(seq(n, _ => c)) == n * Utf8Width(c)
  {
    if n > 0 {
      var s := seq(n, _ => c);
      assert s[1..] == seq(n - 1, _ => c);
      Utf8LenRepeat(c, n - 1);
    }
  }

  /** Every character a name may contain, listed one by one. */
  const AllowedChars: string := "0123456789abcdefghijklmnopqrstuvwxyz.-_"

  /** `invalid_char`: the characters a name may not contain. Every allowed
      character is ASCII. */
  predicate InvalidChar(c: char): (b: bool)
    ensures !b ==> c as int < 0x80
  {
    !(('0' <= c <= '9') || ('a' <= c <= 'z') || (c == '.' || c == '-' || c == '_'))
  }

  /** The range tests of `invalid_char` reject exactly the characters missing
      from the list `AllowedChars`. */
  lemma InvalidCharMatchesList(c: char)
    ensures InvalidChar(c) <==> c !in AllowedChars
  {
    var k := c as int;
    if '0' <= c <= '9' {
      assert c == AllowedChars[k - 48];
    } else if 'a' <= c <= 'z' {
      assert c == AllowedChars[k - 87];
    } else if c == '.' || c == '-' || c == '_' {
      assert c == AllowedChars[36] || c == AllowedChars[37] || c == AllowedChars[38];
    } else {
      forall i | 0 <= i < |AllowedChars| ensures AllowedChars[i] != c {
      }
    }
  }

  /** Allowed characters are all ASCII. */
  lemma AllowedIsAscii(s: string)
    requires forall i :: 0 <= i < |s| ==> !InvalidChar(s[i])
    ensures IsAscii(s)
  {
  }

  /** `i` is the position of the leftmost disallowed character of `s`. */
  predicate IsFirstInvalid(s: string, i: int) {
    0 <= i < |s| && InvalidChar(s[i]) && forall j :: 0 <= j < i ==> !InvalidChar(s[j])
  }

  /** `name.find(invalid_char)`: the leftmost disallowed character, scanning
      left to right. The position is a character index; only the character
      found there is used. */
  function FindInvalid(s: string): (r: Option<nat>)
    ensures r.None? <==> forall i :: 0 <= i < |s| ==> !InvalidChar(s[i])
    ensures r.Some? ==> IsFirstInvalid(s, r.value)
  {
    if s == [] then None
    else if InvalidChar(s[0]) then Some(0)
    else
      match FindInvalid(s[1..])
      case None =>
        assert forall i :: 1 <= i < |s| ==> s[i] == s[1..][i - 1];
        None
      case Some(k) =>
        assert s[k + 1] == s[1..][k];
        assert forall j :: 1 <= j < k + 1 ==> s[j] == s[1..][j - 1];
        Some(k + 1)
  }

  /** `validate_name`: the length checks come first and depend on the byte
      length alone; only a name of acceptable length is scanned, and the
      failure then names its leftmost disallowed character. */
  function ValidateName(name: string): (r: Result<()>)
    ensures r == Err(NameTooShort) <==> Utf8Len(name) < MinNameLength
    ensures r == Err(NameTooLong) <==> Utf8Len(name) > MaxNameLength
    ensures r.Ok? <==>
      && MinNameLength <= Utf8Len(name) <= MaxNameLength
      && forall i :: 0 <= i < |name| ==> !InvalidChar(name[i])
    ensures r.Err? ==> r.error in {NameTooShort, NameTooLong} || r.error.InvalidCharacter?
    ensures r.Err? && r.error.InvalidCharacter? ==>
      exists i :: IsFirstInvalid(name, i) && name[i] == r.error.c
  {
    if Utf8Len(name) < MinNameLength then Err(NameTooShort)
    else if Utf8Len(name) > MaxNameLength then Err(NameTooLong)
    else
      match FindInvalid(name)
      case None => Ok(())
      case Some(i) => Err(InvalidCharacter(name[i]))
  }

  /** An accepted name is ASCII, so its byte length is its character count:
      it has between 3 and 64 characters. */
  lemma ValidNameCharacterCount(name: string)
    requires ValidateName(name).Ok?
    ensures IsAscii(name) && MinNameLength <= |name| <= MaxNameLength
  {
  }

  /** The length bound is on bytes, not characters: a two-character name of
      two-byte characters is long enough, and fails on its first character. */
  lemma ShortMultiByteNameIsNotTooShort()
    ensures |"éé"| < MinNameLength
    ensures ValidateName("éé") == Err(InvalidCharacter('é'))
  {
  }

  /** Likewise a name of 22 three-byte characters is too long, whatever the
      characters are. */
  lemma WideNameIsTooLong(c: char)
    requires 0x800 <= c as int < 0x1_0000
    ensures ValidateName(seq(22, _ => c)) == Err(NameTooLong)
  {
    Utf8LenRepeat(c, 22);
  }
}
