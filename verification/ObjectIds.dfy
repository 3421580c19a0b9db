/** Database object ids as callers write them. */
module ObjectIds {
  import opened Options

  predicate HexDigit(c: char) {
    '0' <= c <= '9' || 'a' <= c <= 'f' || 'A' <= c <= 'F'
  }

  function LowerHex(c: char): char
    requires HexDigit(c)
  {
    if 'A' <= c <= 'F' then c - 'A' + 'a' else c
  }

  /** An object id is written with 24 hex digits in either case. */
  function ParseId(s: string): Option<string> {
    if |s| == 24 && forall i :: 0 <= i < |s| ==> HexDigit(s[i])
    then Some(seq(|s|, i requires 0 <= i < |s| => LowerHex(s[i])))
    else None
  }

  /** An id as the database writes it. */
  predicate Canonical(id: string) {
    ParseId(id) == Some(id)
  }

  lemma ParsedIsCanonical(s: string)
    ensures ParseId(s).Some? ==> Canonical(ParseId(s).value)
  {
    if ParseId(s).Some? {
      var id := ParseId(s).value;
      assert forall i :: 0 <= i < |id| ==> HexDigit(id[i]) && LowerHex(id[i]) == id[i];
      assert ParseId(id).value == id;
    }
  }
}
