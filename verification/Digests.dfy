/** Content digests: what a declared digest says about the bytes it was checked against. */
module Digests {
  import opened Common

  const PREFIX := "sha256:"

  predicate HexDigit(c: char) {
    '0' <= c <= '9' || 'a' <= c <= 'f'
  }

  predicate IsHex(s: string) {
    forall i :: 0 <= i < |s| ==> HexDigit(s[i])
  }

  /** trim_start_matches: drop the prefix as often as it occurs. */
  function TrimStart(s: string): string {
    if PREFIX <= s then TrimStart(s[|PREFIX|..]) else s
  }

  function Labelled(hex: string): string {
    PREFIX + hex
  }

  /** digest_matches, of the declared digest and the labelled digest of the bytes received. */
  predicate DigestMatches(expected: string, actual: string) {
    expected == actual || expected == TrimStart(actual)
  }

  /** A digest may be declared with its label or without, and in no third way. */
  lemma MatchesTwoForms(expected: string, hex: string)
    requires IsHex(hex)
    ensures DigestMatches(expected, Labelled(hex)) <==> expected == hex || expected == Labelled(hex)
  {
    assert Labelled(hex)[|PREFIX|..] == hex;
    assert PREFIX <= Labelled(hex);
    assert !HexDigit(PREFIX[0]);
    assert hex != [] ==> HexDigit(hex[0]);
    assert TrimStart(Labelled(hex)) == TrimStart(hex) == hex;
  }

  /** One declared digest matches one hash only. */
  lemma MatchesOneHash(expected: string, a: string, b: string)
    requires IsHex(a) && IsHex(b)
    requires DigestMatches(expected, Labelled(a)) && DigestMatches(expected, Labelled(b))
    ensures a == b
  {
    MatchesTwoForms(expected, a);
    MatchesTwoForms(expected, b);
    assert Labelled(a)[|PREFIX|..] == a && Labelled(b)[|PREFIX|..] == b;
    assert Labelled(a)[0] == 's' && Labelled(b)[0] == 's';
  }

  datatype Json =
    | Null
    | Bool(value: bool)
    | Number(text: string)
    | Text(chars: string)
    | Array(items: seq<Json>)
    | Object(fields: seq<(string, Json)>)

  /** The hash and the JSON codec, taken as given. */
  datatype Codec = Codec(hash: Bytes -> string, parse: Bytes -> Option<Json>, render: Json -> Bytes)

  /** Hashes are written in hexadecimal, and rendering then parsing a value gives it back. */
  ghost predicate Sensible(codec: Codec) {
    && (forall b: Bytes :: IsHex(codec.hash(b)))
    && (forall v: Json :: codec.parse(codec.render(v)) == Some(v))
  }

  ghost predicate CollisionFree(codec: Codec) {
    forall a: Bytes, b: Bytes :: codec.hash(a) == codec.hash(b) ==> a == b
  }

  function DigestOf(codec: Codec, body: Bytes): string {
    Labelled(codec.hash(body))
  }

  /** Two bodies accepted under one declared digest are one body. */
  lemma SameDigestSameBytes(codec: Codec, expected: string, a: Bytes, b: Bytes)
    requires Sensible(codec) && CollisionFree(codec)
    requires DigestMatches(expected, DigestOf(codec, a)) && DigestMatches(expected, DigestOf(codec, b))
    ensures a == b
  {
    MatchesOneHash(expected, codec.hash(a), codec.hash(b));
  }
}
