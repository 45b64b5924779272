/** UTF-8 text as bytes, and the truncations that never split a character
    (`src/tools/helpers.rs`, `src/embeddings.rs`). Well-formedness follows the
    byte sequence syntax in section 4 of RFC 3629. */
module Utf8 {
  import opened Prelude

  type Byte = b: int | 0 <= b < 256
  type Bytes = seq<Byte>

  // ---------- well-formed text ----------

  predicate Within(b: Byte, low: int, high: int) {
    low <= b <= high
  }

  /** A continuation byte: the only bytes no character starts with. */
  predicate Tail(b: Byte) {
    Within(b, 0x80, 0xBF)
  }

  /** How many bytes a character with this first byte takes, or 0. */
  function LengthByLead(lead: Byte): nat {
    if lead <= 0x7F then 1
    else if Within(lead, 0xC2, 0xDF) then 2
    else if Within(lead, 0xE0, 0xEF) then 3
    else if Within(lead, 0xF0, 0xF4) then 4
    else 0
  }

  /** The second byte excludes overlong forms, surrogates and code points past
      U+10FFFF. */
  predicate SecondOk(lead: Byte, second: Byte) {
    if lead == 0xE0 then Within(second, 0xA0, 0xBF)
    else if lead == 0xED then Within(second, 0x80, 0x9F)
    else if lead == 0xF0 then Within(second, 0x90, 0xBF)
    else if lead == 0xF4 then Within(second, 0x80, 0x8F)
    else Tail(second)
  }

  /** `s` starts with one well-formed character. */
  predicate StartsWithChar(s: Bytes) {
    && s != []
    && var n := LengthByLead(s[0]);
       && 1 <= n <= |s|
       && (n >= 2 ==> SecondOk(s[0], s[1]))
       && (n >= 3 ==> Tail(s[2]))
       && (n == 4 ==> Tail(s[3]))
  }

  predicate ValidUtf8(s: Bytes) {
    s == [] || (StartsWithChar(s) && ValidUtf8(s[LengthByLead(s[0])..]))
  }

  /** `str::is_char_boundary`. */
  predicate IsCharBoundary(s: Bytes, k: nat) {
    k == 0 || k == |s| || (k < |s| && !Tail(s[k]))
  }

  // ---------- boundaries are where prefixes are valid ----------

  lemma {:induction false} FirstCharOfPrefix(s: Bytes, k: nat)
    requires StartsWithChar(s) && k <= |s|
    ensures k < LengthByLead(s[0]) ==> !StartsWithChar(s[..k])
    ensures k >= LengthByLead(s[0]) ==> StartsWithChar(s[..k])
    ensures forall i :: 0 < i < LengthByLead(s[0]) ==> Tail(s[i])
    ensures !Tail(s[0])
  {
  }

  lemma {:induction false} BoundaryAfterFirst(s: Bytes, k: nat)
    requires StartsWithChar(s) && ValidUtf8(s[LengthByLead(s[0])..]) && LengthByLead(s[0]) <= k <= |s|
    ensures IsCharBoundary(s, k) <==> IsCharBoundary(s[LengthByLead(s[0])..], k - LengthByLead(s[0]))
  {
  }

  /** In valid text the character boundaries are exactly the lengths of its
      valid prefixes. */
  lemma {:induction false} BoundaryIffValidPrefix(s: Bytes, k: nat)
    requires ValidUtf8(s) && k <= |s|
    ensures IsCharBoundary(s, k) <==> ValidUtf8(s[..k])
    decreases |s|
  {
    if k > 0 {
      var n := LengthByLead(s[0]);
      FirstCharOfPrefix(s, k);
      if k >= n {
        BoundaryAfterFirst(s, k);
        BoundaryIffValidPrefix(s[n..], k - n);
        assert s[..k][n..] == s[n..][..k - n];
      }
    }
  }

  /** Some boundary lies at most three bytes below any position. */
  lemma {:induction false} BoundaryWithinThree(s: Bytes, k: nat) returns (b: nat)
    requires ValidUtf8(s) && k <= |s|
    ensures b <= k <= b + 3 && IsCharBoundary(s, b)
    decreases |s|
  {
    if k <= 3 {
      b := 0;
    } else {
      var n := LengthByLead(s[0]);
      b := BoundaryWithinThree(s[n..], k - n);
      b := b + n;
      BoundaryAfterFirst(s, b);
    }
  }

  lemma {:induction false} FirstCharStays(a: Bytes, b: Bytes)
    requires StartsWithChar(a)
    ensures var n := LengthByLead(a[0]);
            StartsWithChar(a + b) && (a + b)[0] == a[0] && (a + b)[n..] == a[n..] + b
  {
  }

  lemma {:induction false} ConcatValid(a: Bytes, b: Bytes)
    requires ValidUtf8(a) && ValidUtf8(b)
    ensures ValidUtf8(a + b)
    decreases |a|
  {
    if a == [] {
      assert a + b == b;
    } else {
      var n := LengthByLead(a[0]);
      ConcatValid(a[n..], b);
      FirstCharStays(a, b);
    }
  }

  // ---------- characters ----------

  /** A Unicode scalar value. */
  type Scalar = c: int | 0 <= c <= 0x10FFFF && !(0xD800 <= c <= 0xDFFF)

  /** The encoding table of RFC 3629, section 3. */
  function EncodeChar(c: Scalar): Bytes {
    if c < 0x80 then [c]
    else if c < 0x800 then [0xC0 + c / 64, 0x80 + c % 64]
    else if c < 0x1_0000 then [0xE0 + c / 4096, 0x80 + c / 64 % 64, 0x80 + c % 64]
    else [0xF0 + c / 262144, 0x80 + c / 4096 % 64, 0x80 + c / 64 % 64, 0x80 + c % 64]
  }

  function Encode(text: seq<Scalar>): Bytes {
    if text == [] then [] else EncodeChar(text[0]) + Encode(text[1..])
  }

  /** The number with these base-64 digits. */
  function Number(x: int, y: int, z: int, w: int): int {
    x * 262144 + y * 4096 + z * 64 + w
  }

  lemma {:induction false} DigitsOfNumber(x: nat, y: nat, z: nat, w: nat)
    requires y < 64 && z < 64 && w < 64
    ensures var c := Number(x, y, z, w);
            c / 262144 == x && c / 4096 % 64 == y && c / 64 % 64 == z && c % 64 == w
  {
    var c := Number(x, y, z, w);
    assert c / 64 == x * 4096 + y * 64 + z;
    assert c / 4096 == x * 64 + y;
  }

  function DecodeChar(s: Bytes): Scalar
    requires StartsWithChar(s)
  {
    var n := LengthByLead(s[0]);
    if n == 1 then s[0]
    else if n == 2 then Number(0, 0, s[0] - 0xC0, s[1] - 0x80)
    else if n == 3 then Number(0, s[0] - 0xE0, s[1] - 0x80, s[2] - 0x80)
    else Number(s[0] - 0xF0, s[1] - 0x80, s[2] - 0x80, s[3] - 0x80)
  }

  function Decode(s: Bytes): seq<Scalar>
    requires ValidUtf8(s)
  {
    if s == [] then [] else [DecodeChar(s)] + Decode(s[LengthByLead(s[0])..])
  }

  lemma {:induction false} EncodedCharStarts(c: Scalar, rest: Bytes)
    ensures var s := EncodeChar(c) + rest;
            && StartsWithChar(s) && LengthByLead(s[0]) == |EncodeChar(c)|
            && s[|EncodeChar(c)|..] == rest
  {
  }

  lemma {:induction false} DecodedCharEncodes(s: Bytes)
    requires StartsWithChar(s)
    ensures EncodeChar(DecodeChar(s)) == s[..LengthByLead(s[0])]
  {
    var n := LengthByLead(s[0]);
    if n == 2 {
      DigitsOfNumber(0, 0, s[0] - 0xC0, s[1] - 0x80);
    } else if n == 3 {
      DigitsOfNumber(0, s[0] - 0xE0, s[1] - 0x80, s[2] - 0x80);
    } else if n == 4 {
      DigitsOfNumber(s[0] - 0xF0, s[1] - 0x80, s[2] - 0x80, s[3] - 0x80);
    }
  }

  lemma {:induction false} EncodedCharDecodes(c: Scalar, rest: Bytes)
    requires StartsWithChar(EncodeChar(c) + rest)
    requires LengthByLead((EncodeChar(c) + rest)[0]) == |EncodeChar(c)|
    ensures DecodeChar(EncodeChar(c) + rest) == c
  {
    NumberOfDigits(c);
    var s := EncodeChar(c) + rest;
    assert forall i :: 0 <= i < |EncodeChar(c)| ==> s[i] == EncodeChar(c)[i];
  }

  lemma {:induction false} NumberOfDigits(c: nat)
    ensures Number(c / 262144, c / 4096 % 64, c / 64 % 64, c % 64) == c
    ensures c < 0x800 ==> c / 64 % 64 == c / 64 && c / 4096 == 0 && c / 262144 == 0
    ensures c < 0x1_0000 ==> c / 4096 % 64 == c / 4096 && c / 262144 == 0
  {
    assert c / 64 / 64 == c / 4096 && c / 4096 / 64 == c / 262144;
  }

  /** Decoding an encoding gives back the scalar values, so no two texts share one. */
  lemma {:induction false} EncodingsDecode(text: seq<Scalar>)
    ensures ValidUtf8(Encode(text)) && Decode(Encode(text)) == text
  {
    EncodingsAreValid(text);
    if text != [] {
      EncodingsDecode(text[1..]);
      EncodedCharStarts(text[0], Encode(text[1..]));
      EncodedCharDecodes(text[0], Encode(text[1..]));
    }
  }

  /** The byte syntax admits exactly the encodings of scalar value sequences. */
  lemma {:induction false} EncodingsAreValid(text: seq<Scalar>)
    ensures ValidUtf8(Encode(text))
  {
    if text != [] {
      EncodedCharStarts(text[0], Encode(text[1..]));
      EncodingsAreValid(text[1..]);
    }
  }

  lemma {:induction false} EncodeJoins(first: Scalar, others: seq<Scalar>, s: Bytes, n: nat)
    requires n <= |s| && EncodeChar(first) == s[..n] && Encode(others) == s[n..]
    ensures Encode([first] + others) == s
  {
  }

  lemma {:induction false} ValidTextIsEncoded(s: Bytes)
    requires ValidUtf8(s)
    ensures Encode(Decode(s)) == s
    decreases |s|
  {
    if s != [] {
      var n := LengthByLead(s[0]);
      DecodedCharEncodes(s);
      ValidTextIsEncoded(s[n..]);
      EncodeJoins(DecodeChar(s), Decode(s[n..]), s, n);
    }
  }

  /** A non-empty valid prefix starts with the whole first character. */
  lemma {:induction false} PrefixHoldsFirstChar(r: Bytes, first: Scalar, rest: Bytes)
    requires ValidUtf8(r) && r != [] && r <= EncodeChar(first) + rest
    ensures var n := |EncodeChar(first)|;
            n <= |r| && r[..n] == EncodeChar(first) && ValidUtf8(r[n..]) && r[n..] <= rest
  {
    var s, n := EncodeChar(first) + rest, |EncodeChar(first)|;
    EncodedCharStarts(first, rest);
    FirstCharOfPrefix(s, |r|);
    assert r == s[..|r|];
  }

  /** A valid prefix of a text consists of its first characters. */
  lemma {:induction false} ValidPrefixIsCharacters(r: Bytes, text: seq<Scalar>) returns (count: nat)
    requires ValidUtf8(r) && r <= Encode(text)
    ensures count <= |text| && r == Encode(text[..count])
  {
    if r == [] {
      count := 0;
    } else {
      var n := |EncodeChar(text[0])|;
      PrefixHoldsFirstChar(r, text[0], Encode(text[1..]));
      count := ValidPrefixIsCharacters(r[n..], text[1..]);
      EncodeJoins(text[0], text[1..][..count], r, n);
      count := count + 1;
      assert text[..count] == [text[0]] + text[1..][..count - 1];
    }
  }

  // ---------- truncation ----------

  /** The longest valid text that starts `s` and takes at most `max` bytes. */
  ghost predicate IsLongestValidPrefix(r: Bytes, s: Bytes, max: nat) {
    && r <= s && |r| <= max && ValidUtf8(r)
    && forall k: nat :: k <= |s| && k <= max && ValidUtf8(s[..k]) ==> k <= |r|
  }

  /** The backward walk of both truncations, on text longer than the limit. */
  method WalkBack(s: Bytes, max: nat) returns (end: nat)
    requires ValidUtf8(s) && max < |s|
    ensures end <= max <= end + 3
    ensures IsLongestValidPrefix(s[..end], s, max)
  {
    ghost var near := BoundaryWithinThree(s, max);
    end := max;
    while end > 0 && !IsCharBoundary(s, end)
      invariant near <= end <= max
      invariant forall k: nat :: end < k <= max ==> !IsCharBoundary(s, k)
    {
      end := end - 1;
    }
    BoundaryIffValidPrefix(s, end);
    forall k: nat | k <= max && ValidUtf8(s[..k])
      ensures k <= end
    {
      BoundaryIffValidPrefix(s, k);
    }
  }

  /** `truncate_str`. */
  method TruncateStr(s: Bytes, max: nat) returns (r: Bytes)
    requires ValidUtf8(s)
    ensures IsLongestValidPrefix(r, s, max)
    ensures |r| >= Min(|s|, max - 3)
    ensures |s| <= max ==> r == s
  {
    if |s| <= max {
      assert s[..|s|] == s;
      return s;
    }
    var end := WalkBack(s, max);
    return s[..end];
  }

  lemma {:induction false} EncodePrefix(text: seq<Scalar>, count: nat)
    requires count <= |text|
    ensures Encode(text[..count]) <= Encode(text)
  {
    if count > 0 {
      EncodePrefix(text[1..], count - 1);
      assert text[..count][1..] == text[1..][..count - 1];
    }
  }

  /** Truncation keeps whole characters, and one more would not have fitted. */
  lemma {:induction false} TruncationKeepsWholeCharacters(r: Bytes, text: seq<Scalar>, max: nat)
    requires IsLongestValidPrefix(r, Encode(text), max)
    ensures exists count: nat :: && count <= |text| && r == Encode(text[..count])
                                 && (count < |text| ==> |Encode(text[..count + 1])| > max)
  {
    var count := ValidPrefixIsCharacters(r, text);
    if count < |text| {
      var more := Encode(text[..count + 1]);
      EncodePrefix(text, count + 1);
      EncodingsAreValid(text[..count + 1]);
      EncodeGrows(text, count);
      assert Encode(text)[..|more|] == more;
    }
  }

  lemma {:induction false} EncodeGrows(text: seq<Scalar>, count: nat)
    requires count < |text|
    ensures |Encode(text[..count + 1])| > |Encode(text[..count])|
  {
    assert text[..count + 1][1..] == text[1..][..count];
    if count > 0 {
      assert text[..count][1..] == text[1..][..count - 1];
      EncodeGrows(text[1..], count - 1);
    }
  }

  // ---------- compact listings ----------

  function Ascii(text: string): (s: Bytes)
    requires forall i :: 0 <= i < |text| ==> text[i] < 128 as char
    ensures |s| == |text|
    ensures forall i :: 0 <= i < |s| ==> s[i] == text[i] as int < 128
  {
    seq(|text|, i requires 0 <= i < |text| => text[i] as int)
  }

  lemma {:induction false} AsciiValid(s: Bytes)
    requires forall i :: 0 <= i < |s| ==> s[i] < 128
    ensures ValidUtf8(s)
  {
    if s != [] {
      AsciiValid(s[1..]);
    }
  }

  const COMPACT_BYTES := 200

  /** The scalar values of a text. */
  function Scalars(text: string): seq<Scalar> {
    seq(|text|, i requires 0 <= i < |text| => text[i] as int)
  }

  function BytesOf(text: string): Bytes {
    Encode(Scalars(text))
  }

  /** The compact form of a text: itself when short, otherwise its longest valid
      prefix of 200 bytes and an ellipsis. */
  ghost predicate IsCompact(r: Bytes, text: Bytes) {
    if |text| <= COMPACT_BYTES then r == text
    else exists kept :: IsLongestValidPrefix(kept, text, COMPACT_BYTES) && r == kept + Ascii("...")
  }

  method Compact(text: Bytes) returns (r: Bytes)
    requires ValidUtf8(text)
    ensures IsCompact(r, text) && ValidUtf8(r) && |r| <= COMPACT_BYTES + 3
  {
    if |text| <= COMPACT_BYTES {
      return text;
    }
    var kept := TruncateStr(text, COMPACT_BYTES);
    AsciiValid(Ascii("..."));
    ConcatValid(kept, Ascii("..."));
    return kept + Ascii("...");
  }

  // ---------- the embedded text ----------

  const MAX_EMBEDDING_CHARS := 6000

  function TruncationMark(): Bytes {
    Ascii("\n\n[truncated for embedding]")
  }

  /** What is embedded for a text: itself when it fits, otherwise its longest
      valid prefix within the limit, marked. */
  ghost predicate IsEmbedded(r: Bytes, text: Bytes) {
    if |text| <= MAX_EMBEDDING_CHARS then r == text
    else exists kept :: IsLongestValidPrefix(kept, text, MAX_EMBEDDING_CHARS) && r == kept + TruncationMark()
  }

  method TruncateForEmbedding(text: Bytes) returns (r: Bytes)
    requires ValidUtf8(text)
    ensures IsEmbedded(r, text) && ValidUtf8(r)
    ensures |r| <= MAX_EMBEDDING_CHARS + |TruncationMark()|
  {
    if |text| <= MAX_EMBEDDING_CHARS {
      return text;
    }
    var end := WalkBack(text, MAX_EMBEDDING_CHARS);
    AsciiValid(TruncationMark());
    ConcatValid(text[..end], TruncationMark());
    return text[..end] + TruncationMark();
  }

  function PairText(title: Bytes, body: Bytes): Bytes {
    title + Ascii("\n") + title + Ascii("\n\n") + body
  }

  lemma {:induction false} PairTextValid(title: Bytes, body: Bytes)
    requires ValidUtf8(title) && ValidUtf8(body)
    ensures ValidUtf8(PairText(title, body))
  {
    AsciiValid(Ascii("\n"));
    AsciiValid(Ascii("\n\n"));
    ConcatValid(title, Ascii("\n"));
    ConcatValid(title + Ascii("\n"), title);
    ConcatValid(title + Ascii("\n") + title, Ascii("\n\n"));
    ConcatValid(title + Ascii("\n") + title + Ascii("\n\n"), body);
  }

  /** `prepare_text`: always valid UTF-8 within the budget. */
  method PrepareText(title: Bytes, body: Bytes) returns (r: Bytes)
    requires ValidUtf8(title) && ValidUtf8(body)
    ensures IsEmbedded(r, PairText(title, body)) && ValidUtf8(r)
    ensures |r| <= MAX_EMBEDDING_CHARS + |TruncationMark()|
    ensures 2 * |title| + |body| + 3 <= 6000 ==> r == title + [0x0A] + title + [0x0A, 0x0A] + body
  {
    PairTextValid(title, body);
    r := TruncateForEmbedding(PairText(title, body));
  }

  /** The prepared text is determined by the title and the body, so a text built
      before a row exists is the one embedded for it afterwards. */
  lemma {:induction false} EmbeddedTextIsUnique(a: Bytes, b: Bytes, text: Bytes)
    requires IsEmbedded(a, text) && IsEmbedded(b, text)
    ensures a == b
  {
    if |text| > MAX_EMBEDDING_CHARS {
      var x :| IsLongestValidPrefix(x, text, MAX_EMBEDDING_CHARS) && a == x + TruncationMark();
      var y :| IsLongestValidPrefix(y, text, MAX_EMBEDDING_CHARS) && b == y + TruncationMark();
      assert x == text[..|x|] && y == text[..|y|];
    }
  }
}
