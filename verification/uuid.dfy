/** The UUID shape both `ParseUUIDPipe` and `@IsUUID()` accept: RFC 4122 section 3's string form,
    32 hexadecimal digits in groups of 8-4-4-4-12 separated by hyphens, either letter case. */
module Uuid {

  const UUID_LENGTH: nat := 36

  predicate IsHexDigit(c: char) {
    ('0' <= c <= '9') || ('a' <= c <= 'f') || ('A' <= c <= 'F')
  }

  /** The positions of the four hyphens. */
  predicate IsHyphenPosition(i: int) {
    i == 8 || i == 13 || i == 18 || i == 23
  }

  /** What the character at position `i` of a UUID must be. */
  predicate FitsAt(i: int, c: char) {
    if IsHyphenPosition(i) then c == '-' else IsHexDigit(c)
  }

  predicate IsUuid(s: string) {
    |s| == UUID_LENGTH && forall i :: 0 <= i < |s| ==> FitsAt(i, s[i])
  }

  /** An executable decision procedure for `IsUuid`, scanning the string character by character.
      It stands in for the library's pattern match; the rest of the model uses `IsUuid` itself. */
  method CheckUuid(s: string) returns (ok: bool)
    ensures ok <==> IsUuid(s)
  {
    if |s| != UUID_LENGTH {
      return false;
    }
    var i := 0;
    while i < |s|
      invariant 0 <= i <= |s|
      invariant forall j :: 0 <= j < i ==> FitsAt(j, s[j])
    {
      if !FitsAt(i, s[i]) {
        return false;
      }
      i := i + 1;
    }
    return true;
  }

  /** A UUID is never the empty string, so `@IsNotEmpty()` adds nothing next to `@IsUUID()`. */
  lemma UuidIsNotEmpty(s: string)
    requires IsUuid(s)
    ensures s != ""
  {
  }

  /** A concrete UUID, and strings one character off it, against the predicate. */
  lemma Examples()
    ensures IsUuid("123e4567-e89b-12d3-a456-426614174000")
    ensures IsUuid("123E4567-E89B-12D3-A456-426614174000")
    ensures !IsUuid("123e4567-e89b-12d3-a456-42661417400")
    ensures !IsUuid("123e4567-e89b-12d3-a456-42661417400g")
    ensures !IsUuid("123e4567ae89b-12d3-a456-426614174000")
  {
    var bad := "123e4567-e89b-12d3-a456-42661417400g";
    assert !FitsAt(35, bad[35]);
    var noHyphen := "123e4567ae89b-12d3-a456-426614174000";
    assert !FitsAt(8, noHyphen[8]);
  }
}
