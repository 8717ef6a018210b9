/**
 * The character tokeniser shared by training and inference
 * (backend/train_dual_encoder.py): a charset maps every distinct
 * character of a list of names to an id of 2 or more, ids following
 * sorted character order; 0 is the pad token and 1 the unknown token.
 * A name is encoded by truncating it and looking each character up, then
 * right-padded with the pad token up to a fixed length.
 */
module Tokenizer {
  import opened Text

  const PAD_ID: int := 0
  const UNK_ID: int := 1
  /** Longest English name fed to the English encoder. */
  const MAX_LEN_EN: nat := 15
  /** Longest Korean name fed to the Korean encoder. */
  const MAX_LEN_KO: nat := 4

  type Charset = map<char, int>

  function Min(a: nat, b: nat): nat { if a <= b then a else b }

  // ---------------------------------------------------------------------
  // build_charset
  // ---------------------------------------------------------------------

  /** `set(list(text))` */
  function CharsOfText(text: string): (chars: set<char>)
    ensures forall c :: c in chars <==> c in text
  {
    set i | 0 <= i < |text| :: text[i]
  }

  /** The characters occurring in any of `texts`. */
  function CharsOf(texts: seq<string>): (chars: set<char>)
    ensures forall i, c :: 0 <= i < |texts| && c in texts[i] ==> c in chars
    ensures forall c :: c in chars ==> exists i :: 0 <= i < |texts| && c in texts[i]
  {
    if texts == [] then {}
    else CharsOf(texts[..|texts| - 1]) + CharsOfText(texts[|texts| - 1])
  }

  predicate StrictlyIncreasing(s: seq<char>) {
    forall i, j :: 0 <= i < j < |s| ==> s[i] < s[j]
  }

  lemma MinCharExists(s: set<char>)
    requires s != {}
    ensures exists m :: m in s && forall c :: c in s ==> m <= c
  {
    var x :| x in s;
    if s != {x} {
      MinCharExists(s - {x});
      var m :| m in s - {x} && forall c :: c in s - {x} ==> m <= c;
      var least := if x < m then x else m;
      forall c | c in s ensures least <= c {
        if c != x { assert c in s - {x}; }
      }
      assert least in s;
    }
  }

  function MinChar(s: set<char>): (m: char)
    requires s != {}
    ensures m in s && forall c :: c in s ==> m <= c
  {
    MinCharExists(s);
    var m :| m in s && forall c :: c in s ==> m <= c;
    m
  }

  /** Python's `sorted(chars)`: the characters of `chars` in increasing order. */
  function SortedChars(chars: set<char>): (r: seq<char>)
    ensures |r| == |chars|
    ensures forall c :: c in r <==> c in chars
    ensures StrictlyIncreasing(r)
    decreases |chars|
  {
    if chars == {} then []
    else
      var m := MinChar(chars);
      var rest := SortedChars(chars - {m});
      assert forall c :: c in rest ==> m < c;
      [m] + rest
  }

  /** `{c: i + 2 for i, c in enumerate(sorted_chars)}` */
  function IdsFromSorted(sorted: seq<char>): Charset
    requires StrictlyIncreasing(sorted)
  {
    map i | 0 <= i < |sorted| :: sorted[i] := i + 2
  }

  /** The charset `build_charset(texts)` returns. */
  function CharsetOf(texts: seq<string>): Charset {
    IdsFromSorted(SortedChars(CharsOf(texts)))
  }

  /** build_charset: collect the characters of every text into a set, then number them in sorted order from 2. */
  method BuildCharset(texts: seq<string>) returns (cs: Charset)
    ensures cs == CharsetOf(texts)
  {
    var chars: set<char> := {};
    for i := 0 to |texts|
      invariant chars == CharsOf(texts[..i])
    {
      assert texts[..i + 1][..i] == texts[..i];
      chars := chars + CharsOfText(texts[i]);
    }
    assert texts[..|texts|] == texts;
    cs := IdsFromSorted(SortedChars(chars));
  }

  /** In the charset built from a strictly increasing sequence, the character at position i gets id i + 2. */
  lemma IdsFromSortedAt(sorted: seq<char>, i: nat)
    requires StrictlyIncreasing(sorted) && i < |sorted|
    ensures sorted[i] in IdsFromSorted(sorted) && IdsFromSorted(sorted)[sorted[i]] == i + 2
  {
  }

  /** The keys of `CharsetOf(texts)` are exactly the characters occurring in the texts. */
  lemma CharsetKeys(texts: seq<string>)
    ensures CharsetOf(texts).Keys == CharsOf(texts)
  {
    var sorted := SortedChars(CharsOf(texts));
    forall c | c in CharsOf(texts) ensures c in CharsetOf(texts) {
      var i :| 0 <= i < |sorted| && sorted[i] == c;
      IdsFromSortedAt(sorted, i);
    }
  }

  /** Every id is in 2 .. |charset| + 1 and every such id is used, so the vocabulary size is |charset| + 2. */
  lemma CharsetIdRange(texts: seq<string>)
    ensures forall c :: c in CharsetOf(texts) ==> 2 <= CharsetOf(texts)[c] < |CharsOf(texts)| + 2
    ensures forall id :: 2 <= id < |CharsOf(texts)| + 2 <==> id in CharsetOf(texts).Values
  {
    var cs := CharsetOf(texts);
    var sorted := SortedChars(CharsOf(texts));
    forall c | c in cs ensures 2 <= cs[c] < |sorted| + 2 {
      var i :| 0 <= i < |sorted| && sorted[i] == c;
      IdsFromSortedAt(sorted, i);
    }
    forall id | 2 <= id < |sorted| + 2 ensures id in cs.Values {
      IdsFromSortedAt(sorted, id - 2);
      assert cs[sorted[id - 2]] == id;
    }
    forall id | id in cs.Values ensures 2 <= id < |sorted| + 2 {
      var c :| c in cs && cs[c] == id;
    }
  }

  /** Ids follow sorted character order; in particular distinct characters get distinct ids. */
  lemma CharsetOrdered(texts: seq<string>, c: char, d: char)
    requires c in CharsOf(texts) && d in CharsOf(texts)
    ensures c in CharsetOf(texts) && d in CharsetOf(texts)
    ensures c < d <==> CharsetOf(texts)[c] < CharsetOf(texts)[d]
    ensures c != d ==> CharsetOf(texts)[c] != CharsetOf(texts)[d]
  {
    CharsetKeys(texts);
    var sorted := SortedChars(CharsOf(texts));
    var i :| 0 <= i < |sorted| && sorted[i] == c;
    var j :| 0 <= j < |sorted| && sorted[j] == d;
    IdsFromSortedAt(sorted, i);
    IdsFromSortedAt(sorted, j);
  }

  /** Neither the pad id nor the unknown id is given to a real character. */
  lemma CharsetAvoidsReservedIds(texts: seq<string>)
    ensures forall c :: c in CharsetOf(texts) ==> CharsetOf(texts)[c] != PAD_ID && CharsetOf(texts)[c] != UNK_ID
  {
    CharsetIdRange(texts);
  }

  // ---------------------------------------------------------------------
  // encode and pad
  // ---------------------------------------------------------------------

  /** `charset.get(ch, UNK_ID)` */
  function Lookup(cs: Charset, ch: char): int {
    if ch in cs then cs[ch] else UNK_ID
  }

  /** encode: the ids of the first `maxLen` characters of `text`, unknown characters mapped to UNK_ID. */
  function Encode(text: string, cs: Charset, maxLen: nat): (r: seq<int>)
    ensures |r| == Min(|text|, maxLen)
    ensures forall i :: 0 <= i < |r| ==> r[i] == (if text[i] in cs then cs[text[i]] else UNK_ID)
  {
    if text == [] || maxLen == 0 then []
    else [Lookup(cs, text[0])] + Encode(text[1..], cs, maxLen - 1)
  }

  /** `[PAD_ID] * n` */
  function PadIds(n: nat): (r: seq<int>)
    ensures |r| == n && forall i :: 0 <= i < n ==> r[i] == PAD_ID
  {
    seq(n, _ => PAD_ID)
  }

  /**
   * pad: `seq + [PAD_ID] * (max_len - len(seq))`.  Python repeats a list a
   * negative number of times as the empty list, so an over-long `seq` is
   * returned unchanged.
   */
  function Pad(s: seq<int>, maxLen: nat): (r: seq<int>)
    ensures |s| <= maxLen ==> |r| == maxLen && r[..|s|] == s
    ensures |s| <= maxLen ==> forall i :: |s| <= i < maxLen ==> r[i] == PAD_ID
    ensures |s| > maxLen ==> r == s
  {
    if |s| <= maxLen then s + PadIds(maxLen - |s|) else s
  }

  /** `pad(encode(text, charset, max_len), max_len)`: the fixed-length vector fed to an encoder. */
  function Vectorize(text: string, cs: Charset, maxLen: nat): (r: seq<int>)
    ensures |r| == maxLen
    ensures r[..Min(|text|, maxLen)] == Encode(text, cs, maxLen)
  {
    Pad(Encode(text, cs, maxLen), maxLen)
  }

  /** Padding an already padded sequence changes nothing. */
  lemma PadIdempotent(s: seq<int>, maxLen: nat)
    ensures Pad(Pad(s, maxLen), maxLen) == Pad(s, maxLen)
  {
  }

  /** Encoding with a charset that never uses the pad id never emits the pad id. */
  lemma EncodeNeverPads(text: string, cs: Charset, maxLen: nat)
    requires forall c :: c in cs ==> cs[c] != PAD_ID
    ensures PAD_ID !in Encode(text, cs, maxLen)
  {
  }

  /** The sequence with its trailing pad ids removed. */
  function StripPadding(s: seq<int>): (r: seq<int>)
    ensures |r| <= |s| && r == s[..|r|]
    ensures r == [] || r[|r| - 1] != PAD_ID
    ensures forall i :: |r| <= i < |s| ==> s[i] == PAD_ID
  {
    if s != [] && s[|s| - 1] == PAD_ID then StripPadding(s[..|s| - 1]) else s
  }

  /** Stripping the padding of a padded sequence that does not end in the pad id gives it back. */
  lemma {:induction false} StripPadInverse(s: seq<int>, maxLen: nat)
    requires |s| <= maxLen
    requires s == [] || s[|s| - 1] != PAD_ID
    ensures StripPadding(Pad(s, maxLen)) == s
    decreases maxLen - |s|
  {
    if |s| < maxLen {
      var p := Pad(s, maxLen);
      assert p[..maxLen - 1] == Pad(s, maxLen - 1);
      StripPadInverse(s, maxLen - 1);
    } else {
      assert Pad(s, maxLen) == s;
    }
  }

  /**
   * A padded encoding with a training charset has length exactly `maxLen`,
   * and stripping its trailing pad ids recovers the encoding.
   */
  lemma VectorizeRoundTrip(texts: seq<string>, text: string, maxLen: nat)
    ensures |Vectorize(text, CharsetOf(texts), maxLen)| == maxLen
    ensures StripPadding(Vectorize(text, CharsetOf(texts), maxLen)) == Encode(text, CharsetOf(texts), maxLen)
  {
    var e := Encode(text, CharsetOf(texts), maxLen);
    CharsetAvoidsReservedIds(texts);
    EncodeNeverPads(text, CharsetOf(texts), maxLen);
    if e != [] {
      assert e[|e| - 1] in e;
    }
    StripPadInverse(e, maxLen);
  }

  /**
   * Encoding any of the training texts with the charset built from those
   * same texts yields no unknown id: every character is in the charset.
   */
  lemma TrainingTextsHaveNoUnknown(texts: seq<string>, j: nat, maxLen: nat)
    requires j < |texts|
    ensures UNK_ID !in Encode(texts[j], CharsetOf(texts), maxLen)
  {
    var cs := CharsetOf(texts);
    var e := Encode(texts[j], cs, maxLen);
    CharsetKeys(texts);
    CharsetAvoidsReservedIds(texts);
  }

  /**
   * `[name.lower() for name in names]`: the English training names are
   * lower-cased both when the charset is built and when they are encoded.
   */
  function LowerAll(names: seq<string>): (r: seq<string>)
    ensures |r| == |names| && forall i :: 0 <= i < |names| ==> r[i] == Lower(names[i])
  {
    seq(|names|, i requires 0 <= i < |names| => Lower(names[i]))
  }
}
