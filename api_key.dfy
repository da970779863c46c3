/** generateApiKey: "oaa_" followed by a random UUID with its hyphens
    removed. The UUID is a parameter; hashing and comparing keys (bcrypt)
    are foreign and are parameters of the callers. */
module ApiKey {
  import opened Strings

  const KEY_PREFIX: string := "oaa_"

  function GenerateApiKey(uuid: string): (key: string)
    ensures StartsWith(key, KEY_PREFIX)
    ensures '-' !in key
    ensures key[|KEY_PREFIX|..] == ReplaceAll(uuid, '-', "")
  {
    ReplaceAllRemoves(uuid, '-', "");
    KEY_PREFIX + ReplaceAll(uuid, '-', "")
  }

  /** Text without hyphens is kept as it is, behind the prefix. */
  lemma KeyKeepsHyphenFreeText(u: string)
    requires '-' !in u
    ensures GenerateApiKey(u) == KEY_PREFIX + u
  {
    ReplaceAllKeepsOthers(u, '-', "");
  }

  predicate IsHexDigit(c: char) {
    ('0' <= c <= '9') || ('a' <= c <= 'f') || ('A' <= c <= 'F')
  }

  /** The canonical 8-4-4-4-12 text form of a UUID (section 4 of RFC 9562). */
  predicate CanonicalUuid(u: string) {
    && |u| == 36
    && (forall k :: 0 <= k < 36 ==> (u[k] == '-' <==> k == 8 || k == 13 || k == 18 || k == 23))
    && (forall k :: 0 <= k < 36 && u[k] != '-' ==> IsHexDigit(u[k]))
  }

  /** A key made from a canonical UUID is 36 characters long: the prefix
      plus 32 hexadecimal digits. */
  lemma CanonicalKeyLength(u: string)
    requires CanonicalUuid(u)
    ensures |GenerateApiKey(u)| == 36
    ensures forall k :: |KEY_PREFIX| <= k < 36 ==> IsHexDigit(GenerateApiKey(u)[k])
  {
    RemoveLength(u, '-');
    HyphenCount(u);
    HexKept(u);
  }

  lemma HyphenCount(u: string)
    requires CanonicalUuid(u)
    ensures Count(u, '-') == 4
  {
    var parts := [u[..8], u[8..9], u[9..13], u[13..14], u[14..18], u[18..19], u[19..23], u[23..24], u[24..]];
    assert u == parts[0] + parts[1] + parts[2] + parts[3] + parts[4] + parts[5] + parts[6] + parts[7] + parts[8];
    CountAppend(parts[0] + parts[1] + parts[2] + parts[3] + parts[4] + parts[5] + parts[6] + parts[7], parts[8], '-');
    CountAppend(parts[0] + parts[1] + parts[2] + parts[3] + parts[4] + parts[5] + parts[6], parts[7], '-');
    CountAppend(parts[0] + parts[1] + parts[2] + parts[3] + parts[4] + parts[5], parts[6], '-');
    CountAppend(parts[0] + parts[1] + parts[2] + parts[3] + parts[4], parts[5], '-');
    CountAppend(parts[0] + parts[1] + parts[2] + parts[3], parts[4], '-');
    CountAppend(parts[0] + parts[1] + parts[2], parts[3], '-');
    CountAppend(parts[0] + parts[1], parts[2], '-');
    CountAppend(parts[0], parts[1], '-');
    forall k | k in {0, 2, 4, 6, 8} ensures Count(parts[k], '-') == 0 {
      NoHyphenCount(parts[k]);
    }
    assert parts[1] == "-" && parts[3] == "-" && parts[5] == "-" && parts[7] == "-";
  }

  lemma {:induction false} NoHyphenCount(s: string)
    requires '-' !in s
    ensures Count(s, '-') == 0
    decreases |s|
  {
    if s != [] {
      NoHyphenCount(s[1..]);
    }
  }

  lemma {:induction false} HexKept(u: string)
    requires forall k :: 0 <= k < |u| && u[k] != '-' ==> IsHexDigit(u[k])
    ensures forall c :: c in ReplaceAll(u, '-', "") ==> IsHexDigit(c)
    decreases |u|
  {
    if u != [] {
      HexKept(u[1..]);
    }
  }
}
