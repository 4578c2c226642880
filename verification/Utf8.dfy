/**
 The text side of the data streams: the validity test applied to every text
 chunk and the cut that never splits a character
 (src/core/data_stream.cpp:52-106).
 */
module Utf8 {
  import opened Common

  // ------------------------------------------------------------------------
  // The grammar of section 4 of RFC 3629, production by production.
  // ------------------------------------------------------------------------

  predicate Tail(b: Byte) { 0x80 <= b <= 0xBF }

  predicate Octets1(s: Bytes) { |s| == 1 && s[0] <= 0x7F }

  predicate Octets2(s: Bytes) { |s| == 2 && 0xC2 <= s[0] <= 0xDF && Tail(s[1]) }

  predicate Octets3(s: Bytes)
  {
    && |s| == 3
    && Tail(s[2])
    && (|| (s[0] == 0xE0 && 0xA0 <= s[1] <= 0xBF)
        || (0xE1 <= s[0] <= 0xEC && Tail(s[1]))
        || (s[0] == 0xED && 0x80 <= s[1] <= 0x9F)
        || (0xEE <= s[0] <= 0xEF && Tail(s[1])))
  }

  predicate Octets4(s: Bytes)
  {
    && |s| == 4
    && Tail(s[2])
    && Tail(s[3])
    && (|| (s[0] == 0xF0 && 0x90 <= s[1] <= 0xBF)
        || (0xF1 <= s[0] <= 0xF3 && Tail(s[1]))
        || (s[0] == 0xF4 && 0x80 <= s[1] <= 0x8F))
  }

  predicate Character(s: Bytes) { Octets1(s) || Octets2(s) || Octets3(s) || Octets4(s) }

  /** UTF8-octets: some sequence of characters spells the text. */
  ghost predicate WellFormed(text: Bytes)
  {
    exists characters: seq<Bytes> :: Spells(characters, text)
  }

  ghost predicate Spells(characters: seq<Bytes>, text: Bytes)
  {
    (forall i :: 0 <= i < |characters| ==> Character(characters[i])) && Concat(characters) == text
  }

  // ------------------------------------------------------------------------
  // The same language, read left to right.
  // ------------------------------------------------------------------------

  /** How many octets the first character takes, 0 when the text starts with none. */
  function FirstLength(text: Bytes): (n: nat)
    ensures n <= |text|
    ensures n > 0 ==> Character(text[..n])
  {
    if |text| >= 1 && Octets1(text[..1]) then 1
    else if |text| >= 2 && Octets2(text[..2]) then 2
    else if |text| >= 3 && Octets3(text[..3]) then 3
    else if |text| >= 4 && Octets4(text[..4]) then 4
    else 0
  }

  ghost predicate Valid(text: Bytes)
  {
    text == [] || (FirstLength(text) > 0 && Valid(text[FirstLength(text)..]))
  }

  /** The code is prefix free: a leading character is the one FirstLength finds. */
  lemma FirstIsUnique(c: Bytes, rest: Bytes)
    requires Character(c)
    ensures FirstLength(c + rest) == |c|
  {
    var text := c + rest;
    assert text[..|c|] == c;
    assert forall k :: 0 <= k <= |c| ==> text[..k] == c[..k];
    assert text[0] == c[0];
  }

  lemma {:induction false} SpellsIsValid(characters: seq<Bytes>, text: Bytes)
    requires Spells(characters, text)
    ensures Valid(text)
  {
    if characters != [] {
      var rest := Concat(characters[1..]);
      FirstIsUnique(characters[0], rest);
      assert text[|characters[0]|..] == rest;
      SpellsIsValid(characters[1..], rest);
    }
  }

  lemma {:induction false} ValidIsWellFormed(text: Bytes)
    requires Valid(text)
    ensures WellFormed(text)
  {
    if text == [] {
      assert Spells([], text);
    } else {
      var n := FirstLength(text);
      ValidIsWellFormed(text[n..]);
      var rest :| Spells(rest, text[n..]);
      hide FirstLength, Character, Valid;
      var all := [text[..n]] + rest;
      assert all[1..] == rest;
      assert Spells(all, text);
    }
  }

  lemma ValidIffWellFormed(text: Bytes)
    ensures Valid(text) <==> WellFormed(text)
  {
    if Valid(text) {
      ValidIsWellFormed(text);
    }
    if WellFormed(text) {
      var characters :| Spells(characters, text);
      SpellsIsValid(characters, text);
    }
  }

  // ------------------------------------------------------------------------
  // Validation, as the loop over a moving offset does it.
  // ------------------------------------------------------------------------

  predicate IsContinuation(b: Byte) { (b & 0xC0) == 0x80 }

  lemma ContinuationIsTail(b: Byte)
    ensures IsContinuation(b) <==> Tail(b)
  {
  }

  method IsValidUtf8(text: Bytes) returns (ok: bool)
    ensures ok <==> WellFormed(text)
  {
    ValidIffWellFormed(text);
    var offset := 0;
    while offset < |text|
      invariant 0 <= offset <= |text|
      invariant Valid(text) <==> Valid(text[offset..])
    {
      var step := CharacterAt(text, offset);
      if step == 0 {
        return false;
      }
      assert text[offset..][step..] == text[offset + step..];
      offset := offset + step;
    }
    assert text[offset..] == [];
    return true;
  }

  /** One round of the validation loop: the octets of the character at offset, or 0 to refuse. */
  method CharacterAt(text: Bytes, offset: nat) returns (step: nat)
    requires offset < |text|
    ensures step == FirstLength(text[offset..])
  {
    ghost var rest := text[offset..];
    assert forall k :: 0 <= k <= |rest| ==> |rest[..k]| == k;
    var first := text[offset];
    if first <= 0x7F {
      return 1;
    }
    var length, secondMin: Byte, secondMax: Byte := 0, 0x80, 0xBF;
    if 0xC2 <= first <= 0xDF {
      length := 2;
    } else if 0xE0 <= first <= 0xEF {
      length := 3;
      if first == 0xE0 { secondMin := 0xA0; }
      if first == 0xED { secondMax := 0x9F; }
    } else if 0xF0 <= first <= 0xF4 {
      length := 4;
      if first == 0xF0 { secondMin := 0x90; }
      if first == 0xF4 { secondMax := 0x8F; }
    } else {
      return 0;
    }
    if length > |text| - offset {
      return 0;
    }
    var second := text[offset + 1];
    if second < secondMin || second > secondMax {
      return 0;
    }
    var index := 2;
    while index < length
      invariant 2 <= index <= length
      invariant forall k :: 2 <= k < index ==> Tail(rest[k])
    {
      ContinuationIsTail(text[offset + index]);
      if !IsContinuation(text[offset + index]) {
        return 0;
      }
      index := index + 1;
    }
    return length;
  }

  // ------------------------------------------------------------------------
  // Cutting a text without splitting a character.
  // ------------------------------------------------------------------------

  /** The nearest position at or before k that is 0 or does not continue a character. */
  function Backtrack(s: Bytes, k: nat): (b: nat)
    requires k < |s|
    ensures b <= k
    ensures b == 0 || !IsContinuation(s[b])
    ensures forall j :: b < j <= k ==> IsContinuation(s[j])
  {
    if k > 0 && IsContinuation(s[k]) then Backtrack(s, k - 1) else k
  }

  /** How many leading octets of s go into the next chunk. */
  function CutSize(s: Bytes, limit: nat): (size: nat)
    requires limit > 0
    ensures size <= limit && size <= |s|
    ensures s != [] ==> size > 0
  {
    if |s| <= limit then |s|
    else if Backtrack(s, limit) == 0 then limit
    else Backtrack(s, limit)
  }

  method Utf8AwareChunkSize(text: Bytes, offset: nat, limit: nat) returns (size: nat)
    requires offset <= |text| && limit > 0
    ensures size == CutSize(text[offset..], limit)
  {
    size := Min(|text| - offset, limit);
    if offset + size == |text| {
      return;
    }
    var boundary := offset + size;
    ghost var rest := text[offset..];
    while boundary > offset && IsContinuation(text[boundary])
      invariant offset <= boundary <= offset + size
      invariant Backtrack(rest, boundary - offset) == Backtrack(rest, size)
    {
      boundary := boundary - 1;
    }
    return if boundary == offset then size else boundary - offset;
  }

  /** All the chunks one text is cut into. */
  function Chunks(text: Bytes, limit: nat): (chunks: seq<Bytes>)
    requires limit > 0
    decreases |text|
  {
    if text == [] then []
    else
      var n := CutSize(text, limit);
      [text[..n]] + Chunks(text[n..], limit)
  }

  /** Valid or not, every text is cut into non-empty chunks within the limit that add up to it. */
  lemma {:induction false} ChunksAddUp(text: Bytes, limit: nat)
    requires limit > 0
    ensures Concat(Chunks(text, limit)) == text
    ensures forall c :: c in Chunks(text, limit) ==> 0 < |c| <= limit
    decreases |text|
  {
    if text != [] {
      var n := CutSize(text, limit);
      ChunksAddUp(text[n..], limit);
      assert Chunks(text, limit)[1..] == Chunks(text[n..], limit);
      assert text[..n] + text[n..] == text;
    }
  }

  lemma CharacterShape(text: Bytes, n: nat)
    requires n <= |text| && Character(text[..n])
    ensures 0 < n <= 4
    ensures !IsContinuation(text[0])
    ensures forall k :: 0 < k < n ==> IsContinuation(text[k])
  {
    ContinuationIsTail(text[0]);
    forall k | 0 < k < n ensures IsContinuation(text[k]) {
      ContinuationIsTail(text[k]);
    }
  }

  lemma {:induction false} SplitBeforeLead(text: Bytes, k: nat)
    requires Valid(text) && k <= |text|
    requires k < |text| ==> !IsContinuation(text[k])
    ensures Valid(text[..k]) && Valid(text[k..])
    decreases |text|
  {
    if k == 0 {
      assert text[k..] == text;
    } else {
      var n := FirstLength(text);
      CharacterShape(text, n);
      SplitBeforeLead(text[n..], k - n);
      hide FirstLength, IsContinuation;
      assert text[n..][k - n..] == text[k..];
      FirstIsUnique(text[..n], text[n..k]);
      assert text[..n] + text[n..k] == text[..k];
      assert text[..k][n..] == text[n..][..k - n];
    }
  }

  /** Among any four neighbouring octets of a valid text one starts a character. */
  lemma {:induction false} LeadWithinFour(text: Bytes, k: nat) returns (lead: nat)
    requires Valid(text) && k < |text|
    ensures k - 3 <= lead <= k && !IsContinuation(text[lead])
    decreases |text|
  {
    var n := FirstLength(text);
    CharacterShape(text, n);
    if k < n {
      lead := 0;
    } else {
      var inner := LeadWithinFour(text[n..], k - n);
      lead := n + inner;
    }
  }

  lemma CutKeepsCharacters(text: Bytes, limit: nat)
    requires Valid(text) && limit >= 4
    ensures Valid(text[..CutSize(text, limit)]) && Valid(text[CutSize(text, limit)..])
  {
    if |text| <= limit {
      assert text[..|text|] == text;
    } else {
      var lead := LeadWithinFour(text, limit);
      assert Backtrack(text, limit) >= lead > 0;
      SplitBeforeLead(text, Backtrack(text, limit));
    }
  }

  /** A well-formed text is cut into well-formed chunks. */
  lemma {:induction false} ChunksAreWellFormed(text: Bytes, limit: nat)
    requires WellFormed(text) && limit >= 4
    ensures forall c :: c in Chunks(text, limit) ==> WellFormed(c)
    decreases |text|
  {
    if text != [] {
      var n := CutSize(text, limit);
      ValidIffWellFormed(text);
      CutKeepsCharacters(text, limit);
      ValidIffWellFormed(text[..n]);
      ValidIffWellFormed(text[n..]);
      ChunksAreWellFormed(text[n..], limit);
    }
  }

  /** The limit of four is sharp: with three, a four-octet character is split. */
  lemma FourIsNeeded()
    ensures exists text :: WellFormed(text) && exists c :: c in Chunks(text, 3) && !WellFormed(c)
  {
    var text: Bytes := [0xF0, 0x90, 0x80, 0x80];
    assert Character(text[..4]);
    assert text[4..] == [];
    assert Valid(text);
    ValidIffWellFormed(text);
    var c := Chunks(text, 3)[0];
    assert Backtrack(text, 3) == 0 by {
      ContinuationIsTail(text[1]);
      ContinuationIsTail(text[2]);
      ContinuationIsTail(text[3]);
    }
    assert c == text[..3];
    assert c[..1] == text[..1] && c[..2] == text[..2] && c[..3] == c;
    assert !Valid(c);
    ValidIffWellFormed(c);
  }
}
