/** Document identities: the hexadecimal strings of BSON ObjectIds. */
module ObjectIds {
  import opened JsValues

  type Id = string

  predicate IsHexDigit(c: char) {
    ('0' <= c <= '9') || ('a' <= c <= 'f') || ('A' <= c <= 'F')
  }

  /** `ObjectId.isValid(s)` for a string `s`: 24 hexadecimal digits, in either case. */
  predicate IsValid(s: string) {
    |s| == 24 && forall i :: 0 <= i < |s| ==> IsHexDigit(s[i])
  }

  /** The form `ObjectId.prototype.toString` renders: 24 lower-case hexadecimal digits. */
  predicate IsCanonical(s: string) {
    IsValid(s) && forall i :: 0 <= i < |s| ==> !('A' <= s[i] <= 'F')
  }

  function LowerHex(c: char): (r: char)
    ensures IsHexDigit(c) ==> IsHexDigit(r) && !('A' <= r <= 'F')
    ensures !('A' <= c <= 'F') ==> r == c
  {
    if 'A' <= c <= 'F' then (c as int + 32) as char else c
  }

  /**
   * `new ObjectId(s).toString()`: the identity a query with `new ObjectId(s)`
   * matches. Two valid strings name the same document exactly when their
   * canonical forms are equal.
   */
  function Canonical(s: string): (r: Id)
    requires IsValid(s)
    ensures IsCanonical(r)
    ensures IsCanonical(s) ==> r == s
  {
    seq(|s|, i requires 0 <= i < |s| => LowerHex(s[i]))
  }

  /** A string value holding a valid id is a non-blank, truthy, trimmed string. */
  lemma ValidIdValue(v: Value)
    ensures v.Str? && IsValid(v.s) ==> NonBlankString(v) && Truthy(v) && Trim(v.s) == v.s
  {
    if v.Str? && IsValid(v.s) {
      ValidIdIsTrimmed(v.s);
    }
  }

  /** A valid id has no surrounding whitespace, so the data layer's `trim` leaves it as it is. */
  lemma ValidIdIsTrimmed(s: string)
    requires IsValid(s)
    ensures Trim(s) == s && !IsBlank(s)
  {
    TrimOfTrimmed(s);
  }
}
