/**
 * The payload assembler: the canonical text built from a request's path, query
 * and body, and its fingerprint, the lowercase hex form of a digest of that
 * text. UTF-8 and SHA-256 are library code; they enter as the fields of a
 * `Library` value and nothing is assumed about them.
 */
module Fingerprint {
  import opened Wrappers

  /** A Java byte: signed, -128 to 127. */
  newtype jbyte = b: int | -128 <= b < 128

  /** The byte-level library calls the filter relies on. */
  datatype Library = Library(
    utf8Encode: string -> seq<jbyte>,
    utf8Decode: seq<jbyte> -> string,
    sha256: seq<jbyte> -> seq<jbyte>)

  const PathLabel: string := "PATH: "
  const QueryLabel: string := ", QUERY: "
  const BodyLabel: string := ", BODY: "

  /** How `%s` renders the URI query: a missing (null) query prints as `null`. */
  function QueryText(query: Option<string>): (text: string)
    ensures query.None? ==> text == "null"
    ensures query.Some? ==> text == query.value
  {
    match query
    case None => "null"
    case Some(q) => q
  }

  /** The canonical payload "PATH: %s, QUERY: %s, BODY: %s". */
  function Payload(path: string, query: Option<string>, body: string): (p: string)
    ensures |p| == 23 + |path| + |QueryText(query)| + |body|
    ensures p[..|PathLabel|] == PathLabel
  {
    PathLabel + path + QueryLabel + QueryText(query) + BodyLabel + body
  }

  /** The payload begins with the labelled path and ends with the whole body text. */
  lemma PayloadFrames(path: string, query: Option<string>, body: string)
    ensures var p := Payload(path, query, body);
      |p| == 23 + |path| + |QueryText(query)| + |body|
      && p[..6 + |path|] == PathLabel + path
      && p[|p| - |body|..] == body
  {
    var p := Payload(path, query, body);
    assert p == (PathLabel + path) + (QueryLabel + QueryText(query) + BodyLabel) + body;
  }

  /** A request without a query and one whose query is the text `null` give the same payload. */
  lemma NullQueryCollides(path: string, body: string)
    ensures Payload(path, None, body) == Payload(path, Some("null"), body)
  {
  }

  /** Java's `0xff & b`: the byte read as an unsigned value. */
  function Unsigned(b: jbyte): (u: int)
    ensures 0 <= u < 256
    ensures u % 256 == (b as int) % 256
  {
    if b < 0 then b as int + 256 else b as int
  }

  /** The inverse of `Unsigned`. */
  function Signed(u: int): (b: jbyte)
    requires 0 <= u < 256
    ensures Unsigned(b) == u
  {
    if u < 128 then u as jbyte else (u - 256) as jbyte
  }

  const HexDigits: string := "0123456789abcdef"

  function HexDigit(n: int): char
    requires 0 <= n < 16
  {
    HexDigits[n]
  }

  /** The value of a lowercase hex digit; anything else is rejected. */
  function DigitValue(c: char): (v: Option<int>)
    ensures v.Some? ==> 0 <= v.value < 16 && HexDigit(v.value) == c
  {
    if '0' <= c <= '9' then Some(c as int - '0' as int)
    else if 'a' <= c <= 'f' then Some(c as int - 'a' as int + 10)
    else None
  }

  lemma DigitValueOfHexDigit(n: int)
    requires 0 <= n < 16
    ensures DigitValue(HexDigit(n)) == Some(n)
  {
  }

  /** Java's `Integer.toHexString` on a non-negative value: lowercase, no leading zeros. */
  function ToHexString(n: nat): (s: string)
    ensures 1 <= |s|
    ensures |s| == 1 <==> n < 16
    decreases n
  {
    if n < 16 then [HexDigit(n)] else ToHexString(n / 16) + [HexDigit(n % 16)]
  }

  /** A value below 256 as exactly two lowercase hex digits, high digit first. */
  function HexPair(u: int): (s: string)
    requires 0 <= u < 256
  {
    [HexDigit(u / 16), HexDigit(u % 16)]
  }

  /**
   * One digest byte as the loop appends it: the hex string of `0xff & b`,
   * preceded by '0' when it has a single digit. This is always the two-digit form.
   */
  function PaddedHex(b: jbyte): (s: string)
    ensures s == HexPair(Unsigned(b))
  {
    var u := Unsigned(b);
    var hex := ToHexString(u);
    if |hex| == 1 then ['0'] + hex
    else
      assert ToHexString(u / 16) == [HexDigit(u / 16)];
      hex
  }

  /** The hex string of a whole digest. */
  function HexEncode(digest: seq<jbyte>): (s: string)
    ensures |s| == 2 * |digest|
  {
    if |digest| == 0 then "" else HexPair(Unsigned(digest[0])) + HexEncode(digest[1..])
  }

  /** Reads a lowercase hex string back as bytes, two characters per byte. */
  function HexDecode(s: string): (r: Option<seq<jbyte>>)
    ensures r.Some? ==> 2 * |r.value| == |s|
  {
    if |s| == 0 then Some([])
    else if |s| == 1 then None
    else
      match (DigitValue(s[0]), DigitValue(s[1]), HexDecode(s[2..]))
      case (Some(hi), Some(lo), Some(rest)) => Some([Signed(16 * hi + lo)] + rest)
      case _ => None
  }

  /** The fingerprint of a payload: the hex form of the SHA-256 digest of its UTF-8 bytes. */
  function CacheKey(lib: Library, payload: string): string
  {
    HexEncode(lib.sha256(lib.utf8Encode(payload)))
  }

  lemma {:induction false} HexEncodeAppend(digest: seq<jbyte>, b: jbyte)
    ensures HexEncode(digest + [b]) == HexEncode(digest) + HexPair(Unsigned(b))
  {
    if |digest| == 0 {
      assert digest + [b] == [b];
    } else {
      assert (digest + [b])[1..] == digest[1..] + [b];
      HexEncodeAppend(digest[1..], b);
    }
  }

  /** Byte i of the digest is written, as two hex digits, at positions 2i and 2i+1. */
  lemma {:induction false} HexEncodeAt(digest: seq<jbyte>, i: int)
    requires 0 <= i < |digest|
    ensures HexEncode(digest)[2 * i .. 2 * i + 2] == HexPair(Unsigned(digest[i]))
  {
    var head, tail := HexPair(Unsigned(digest[0])), HexEncode(digest[1..]);
    assert HexEncode(digest) == head + tail;
    if i > 0 {
      HexEncodeAt(digest[1..], i - 1);
      assert digest[1..][i - 1] == digest[i];
    }
  }

  /** Every character of a fingerprint is a lowercase hex digit. */
  lemma HexEncodeLowercase(digest: seq<jbyte>)
    ensures forall k :: 0 <= k < |HexEncode(digest)| ==> HexEncode(digest)[k] in HexDigits
  {
    var s := HexEncode(digest);
    forall k | 0 <= k < |s|
      ensures s[k] in HexDigits
    {
      var i := k / 2;
      HexEncodeAt(digest, i);
      assert s[k] == s[2 * i .. 2 * i + 2][k - 2 * i];
    }
  }

  /** Decoding a fingerprint gives back the digest. */
  lemma {:induction false} HexRoundTrip(digest: seq<jbyte>)
    ensures HexDecode(HexEncode(digest)) == Some(digest)
  {
    if |digest| > 0 {
      var b := digest[0];
      var s := HexEncode(digest);
      assert s == HexPair(Unsigned(b)) + HexEncode(digest[1..]);
      assert s[2..] == HexEncode(digest[1..]);
      HexRoundTrip(digest[1..]);
      DigitValueOfHexDigit(Unsigned(b) / 16);
      DigitValueOfHexDigit(Unsigned(b) % 16);
      assert Signed(16 * (Unsigned(b) / 16) + Unsigned(b) % 16) == b;
      assert [b] + digest[1..] == digest;
    }
  }

  /** Distinct digests give distinct fingerprints. */
  lemma HexEncodeInjective(d1: seq<jbyte>, d2: seq<jbyte>)
    requires HexEncode(d1) == HexEncode(d2)
    ensures d1 == d2
  {
    HexRoundTrip(d1);
    HexRoundTrip(d2);
  }

  /** A SHA-256 digest has 32 bytes, so its fingerprint has 64 characters. */
  lemma Sha256KeyLength(lib: Library, payload: string)
    requires |lib.sha256(lib.utf8Encode(payload))| == 32
    ensures |CacheKey(lib, payload)| == 64
  {
  }

  /** Equal (path, query, body) triples give equal payloads and so equal cache keys. */
  lemma EqualTriplesEqualKeys(lib: Library, path: string, query: Option<string>, body: string,
                              path': string, query': Option<string>, body': string)
    requires path == path' && query == query' && body == body'
    ensures Payload(path, query, body) == Payload(path', query', body')
    ensures CacheKey(lib, Payload(path, query, body)) == CacheKey(lib, Payload(path', query', body'))
  {
  }

  /** One iteration of the loop appends exactly the padded digits of the byte. */
  lemma PaddedStep(before: string, b: jbyte)
    ensures var digits := ToHexString(Unsigned(b));
      (if |digits| == 1 then before + "0" + digits else before + digits) == before + PaddedHex(b)
  {
    var digits := ToHexString(Unsigned(b));
    if |digits| == 1 {
      assert before + "0" + digits == before + (['0'] + digits);
    }
  }

  /** Appending the padded digits of the next byte extends the encoding of the digest's prefix by that byte. */
  lemma EncodedPrefixGrows(hash: seq<jbyte>, i: int, before: string, after: string)
    requires 0 <= i < |hash|
    requires before == HexEncode(hash[..i]) && after == before + PaddedHex(hash[i])
    ensures after == HexEncode(hash[..i + 1])
  {
    HexEncodeAppend(hash[..i], hash[i]);
    assert hash[..i + 1] == hash[..i] + [hash[i]];
  }

  /**
   * createHash: digests the payload's UTF-8 bytes and appends each digest byte
   * as two lowercase hex characters.
   */
  method CreateHash(lib: Library, input: string) returns (hex: string)
    ensures hex == CacheKey(lib, input)
  {
    var hash := lib.sha256(lib.utf8Encode(input));
    hex := "";
    for i := 0 to |hash|
      invariant hex == HexEncode(hash[..i])
    {
      ghost var before := hex;
      var digits := ToHexString(Unsigned(hash[i]));
      if |digits| == 1 {
        hex := hex + "0";
      }
      hex := hex + digits;
      PaddedStep(before, hash[i]);
      EncodedPrefixGrows(hash, i, before, hex);
    }
    assert hash[..|hash|] == hash;
  }
}
