/**
 * A model of the `BitArray` type: a bit vector stored in a single unsigned
 * 64-bit word.  The word and the bit indices are `bv64`, so every shift, mask
 * and lost high bit below is the one a Rust `u64` has.
 *
 * The word-level functions (`Mask`, `BitOf`, `Assign`, `Toggle`, `Parse`,
 * `Render`) say what the operations compute; the class `BitArray` holds the
 * word and updates it in place, and its methods are proved against those
 * functions.  The bit-vector facts are kept in small lemmas of their own,
 * each about one shift or mask, and the longer proofs only combine them.
 */
module BitArrays {

  // ---------------------------------------------------------------------------
  // Single bits of a word
  // ---------------------------------------------------------------------------

  /** The word with only bit `n` set, the mask `1 << n` that the `set`, `get` and `flip` tests presuppose. */
  function Mask(n: bv64): bv64
    requires n < 64
  {
    1 << n
  }

  /** Whether bit `n`, counted from the least significant bit, is set in `w`. */
  predicate BitOf(w: bv64, n: bv64)
    requires n < 64
  {
    w & Mask(n) != 0
  }

  /** The word after `set(n, b)`: bit `n` or-ed in when `b`, and-ed out otherwise. */
  function Assign(w: bv64, n: bv64, b: bool): bv64
    requires n < 64
  {
    if b then w | Mask(n) else w & !Mask(n)
  }

  /** The word after `flip(n)`: bit `n` xor-ed. */
  function Toggle(w: bv64, n: bv64): bv64
    requires n < 64
  {
    w ^ Mask(n)
  }

  lemma SetMaskSame(w: bv64, n: bv64)
    requires n < 64
    ensures BitOf(w | Mask(n), n)
  {
  }

  lemma ClearMaskSame(w: bv64, n: bv64)
    requires n < 64
    ensures !BitOf(w & !Mask(n), n)
  {
  }

  lemma ToggleMaskSame(w: bv64, n: bv64)
    requires n < 64
    ensures BitOf(w ^ Mask(n), n) == !BitOf(w, n)
  {
  }

  lemma SetMaskOther(w: bv64, n: bv64, i: bv64)
    requires n < 64 && i < 64 && i != n
    ensures BitOf(w | Mask(n), i) == BitOf(w, i)
  {
  }

  lemma ClearMaskOther(w: bv64, n: bv64, i: bv64)
    requires n < 64 && i < 64 && i != n
    ensures BitOf(w & !Mask(n), i) == BitOf(w, i)
  {
  }

  lemma ToggleMaskOther(w: bv64, n: bv64, i: bv64)
    requires n < 64 && i < 64 && i != n
    ensures BitOf(w ^ Mask(n), i) == BitOf(w, i)
  {
  }

  /** After `set(n, b)`, bit `n` is `b`. */
  lemma AssignSame(w: bv64, n: bv64, b: bool)
    requires n < 64
    ensures BitOf(Assign(w, n, b), n) == b
  {
    if b {
      SetMaskSame(w, n);
    } else {
      ClearMaskSame(w, n);
    }
  }

  /** `set(n, b)` leaves every bit other than `n` as it was. */
  lemma AssignOthers(w: bv64, n: bv64, b: bool)
    requires n < 64
    ensures forall i: bv64 :: i < 64 && i != n ==> BitOf(Assign(w, n, b), i) == BitOf(w, i)
  {
    forall i: bv64 | i < 64 && i != n
      ensures BitOf(Assign(w, n, b), i) == BitOf(w, i)
    {
      if b {
        SetMaskOther(w, n, i);
      } else {
        ClearMaskOther(w, n, i);
      }
    }
  }

  /** A word and-ed with a one-bit mask keeps either nothing or the whole mask. */
  lemma MaskSingle(w: bv64, n: bv64)
    requires n < 64
    ensures w & Mask(n) == 0 || w & Mask(n) == Mask(n)
  {
  }

  lemma OrPresent(w: bv64, m: bv64)
    requires w & m == m
    ensures w | m == w
  {
  }

  lemma AndAbsent(w: bv64, m: bv64)
    requires w & m == 0
    ensures w & !m == w
  {
  }

  /** Setting a bit that is already set leaves the word unchanged. */
  lemma SetPresent(w: bv64, n: bv64)
    requires n < 64 && BitOf(w, n)
    ensures w | Mask(n) == w
  {
    MaskSingle(w, n);
    OrPresent(w, Mask(n));
  }

  /** Clearing a bit that is already clear leaves the word unchanged. */
  lemma ClearAbsent(w: bv64, n: bv64)
    requires n < 64 && !BitOf(w, n)
    ensures w & !Mask(n) == w
  {
    AndAbsent(w, Mask(n));
  }

  /** Writing a bit with the value it already has leaves the word unchanged. */
  lemma AssignNoChange(w: bv64, n: bv64, b: bool)
    requires n < 64 && BitOf(w, n) == b
    ensures Assign(w, n, b) == w
  {
    if b {
      SetPresent(w, n);
    } else {
      ClearAbsent(w, n);
    }
  }

  /** `flip(n)` inverts bit `n`. */
  lemma ToggleSame(w: bv64, n: bv64)
    requires n < 64
    ensures BitOf(Toggle(w, n), n) == !BitOf(w, n)
  {
    ToggleMaskSame(w, n);
  }

  /** `flip(n)` leaves every bit other than `n` as it was. */
  lemma ToggleOthers(w: bv64, n: bv64)
    requires n < 64
    ensures forall i: bv64 :: i < 64 && i != n ==> BitOf(Toggle(w, n), i) == BitOf(w, i)
  {
    forall i: bv64 | i < 64 && i != n
      ensures BitOf(Toggle(w, n), i) == BitOf(w, i)
    {
      ToggleMaskOther(w, n, i);
    }
  }

  /** Flipping the same bit twice gives back the word. */
  lemma ToggleTwice(w: bv64, n: bv64)
    requires n < 64
    ensures Toggle(Toggle(w, n), n) == w
  {
  }

  // ---------------------------------------------------------------------------
  // Moving a word by one place
  // ---------------------------------------------------------------------------

  /** The bit a character contributes when parsed: only '1' gives a 1 bit. */
  function DigitBit(c: char): bv64
  {
    if c == '1' then 1 else 0
  }

  /** The character that shows the lowest bit of `w`. */
  function DigitChar(w: bv64): char
  {
    if w & 1 == 1 then '1' else '0'
  }

  /** One parsing step: shift the word left by one and put `c`'s bit in the lowest place. */
  function Push(v: bv64, c: char): bv64
  {
    (v << 1) | DigitBit(c)
  }

  lemma PushLow(v: bv64, c: char)
    ensures BitOf(Push(v, c), 0) == (c == '1')
  {
  }

  lemma ShiftInHigh(v: bv64, d: bv64, n: bv64)
    requires d == 0 || d == 1
    requires 0 < n < 64
    ensures BitOf((v << 1) | d, n) == BitOf(v, n - 1)
  {
  }

  lemma PushHigh(v: bv64, c: char, n: bv64)
    requires 0 < n < 64
    ensures BitOf(Push(v, c), n) == BitOf(v, n - 1)
  {
    ShiftInHigh(v, DigitBit(c), n);
  }

  lemma PushPop(v: bv64, c: char)
    requires !BitOf(v, 63)
    ensures Push(v, c) >> 1 == v
  {
  }

  lemma PushLowBit(v: bv64, c: char)
    ensures Push(v, c) & 1 == DigitBit(c)
  {
  }

  lemma PushNonzero(v: bv64, c: char)
    requires v != 0 && !BitOf(v, 63)
    ensures Push(v, c) >= 2
  {
  }

  lemma ShiftOut(w: bv64, n: bv64)
    requires 0 < n < 64
    ensures BitOf(w, n) == BitOf(w >> 1, n - 1)
  {
  }

  lemma ShiftOutTop(w: bv64)
    ensures !BitOf(w >> 1, 63)
  {
  }

  lemma HalveAndPush(w: bv64)
    ensures Push(w >> 1, DigitChar(w)) == w
  {
  }

  lemma LowBit(w: bv64)
    ensures BitOf(w, 0) == (w & 1 == 1)
  {
  }

  lemma SmallWordBits(w: bv64, n: bv64)
    requires w < 2 && 0 < n < 64
    ensures !BitOf(w, n)
  {
  }

  // The two statements of one pass of the `from_binary` loop make one `Push`.

  lemma ZeroShift()
    ensures (0 as bv64) << 1 == 0
  {
  }

  lemma PushOne(acc: bv64)
    ensures (acc << 1) | 1 == Push(acc, '1')
  {
  }

  lemma PushOther(acc: bv64, c: char)
    requires c != '1'
    ensures acc << 1 == Push(acc, c)
  {
  }

  // ---------------------------------------------------------------------------
  // Binary text
  // ---------------------------------------------------------------------------

  /**
   * The place, counted from the right of a text and starting at 0, of the
   * character that stands for bit `n`.  It is `n as int`, kept behind a name
   * with the three facts below so that the text lemmas never convert a word
   * to an integer themselves: the solver handles these small facts about
   * `n < 64` cheaply, but not the conversion inline in a longer proof.
   */
  function Pos(n: bv64): (p: nat)
    requires n < 64
    ensures p < 64
  {
    n as int
  }

  lemma PosZero()
    ensures Pos(0) == 0
  {
  }

  lemma PosTop()
    ensures Pos(63) == 63
  {
  }

  lemma PosPred(n: bv64)
    requires 0 < n < 64
    ensures Pos(n - 1) == Pos(n) - 1
  {
  }

  /**
   * The word `from_binary` builds from `s`: the characters are read most
   * significant first, the word shifts left by one place per character and
   * takes the character's bit in its lowest place.  Bits shifted past bit 63
   * are lost, as in a `u64`.
   */
  function Parse(s: seq<char>): bv64
  {
    if s == [] then 0 else Push(Parse(s[..|s| - 1]), s[|s| - 1])
  }

  /** Conventional base-2 text: binary digits only, no leading zero except in "0". */
  predicate Canonical(s: seq<char>)
  {
    |s| >= 1 &&
    (forall k :: 0 <= k < |s| ==> s[k] == '0' || s[k] == '1') &&
    (s[0] == '0' ==> s == "0")
  }

  /**
   * The text `as_string` shows for `w`: base 2, most significant set bit
   * first, no leading zeros, and "0" for zero.
   */
  function Render(w: bv64): (r: seq<char>)
    ensures Canonical(r)
    ensures (r == "0") == (w == 0)
    decreases w
  {
    if w < 2 then [DigitChar(w)] else Render(w >> 1) + [DigitChar(w)]
  }

  /** Parsing one more character of `s` is one more `Push`. */
  lemma ParseSnoc(s: seq<char>, i: nat)
    requires i < |s|
    ensures Parse(s[..i + 1]) == Push(Parse(s[..i]), s[i])
  {
    assert s[..i + 1][..i] == s[..i];
  }

  /**
   * Bit `n` of `Parse(s)` is set exactly when the character `Pos(n)` places
   * from the right of `s` is '1'; characters 64 or more places from the
   * right have no effect on the word.
   */
  lemma {:induction false} ParsedBit(s: seq<char>, n: bv64)
    requires n < 64
    ensures BitOf(Parse(s), n) == (Pos(n) < |s| && s[|s| - 1 - Pos(n)] == '1')
  {
    if s == [] {
      assert Parse(s) == 0;
    } else {
      var t := s[..|s| - 1];
      if n == 0 {
        PosZero();
        PushLow(Parse(t), s[|s| - 1]);
      } else {
        PosPred(n);
        PushHigh(Parse(t), s[|s| - 1], n);
        ParsedBit(t, n - 1);
      }
    }
  }

  /** `ParsedBit` at every bit index. */
  lemma ParsedBits(s: seq<char>)
    ensures forall n: bv64 :: n < 64 ==> BitOf(Parse(s), n) == (Pos(n) < |s| && s[|s| - 1 - Pos(n)] == '1')
  {
    forall n: bv64 | n < 64
      ensures BitOf(Parse(s), n) == (Pos(n) < |s| && s[|s| - 1 - Pos(n)] == '1')
    {
      ParsedBit(s, n);
    }
  }

  /** A text without a '1' parses to zero ("", "x", "00000000"). */
  lemma {:induction false} ParseNoOnes(z: seq<char>)
    requires forall k :: 0 <= k < |z| ==> z[k] != '1'
    ensures Parse(z) == 0
  {
    if z != [] {
      ParseNoOnes(z[..|z| - 1]);
    }
  }

  /** Leading characters other than '1' do not change the parsed word. */
  lemma {:induction false} ParseLeadingZeros(z: seq<char>, s: seq<char>)
    requires forall k :: 0 <= k < |z| ==> z[k] != '1'
    ensures Parse(z + s) == Parse(s)
  {
    if s == [] {
      assert z + s == z;
      ParseNoOnes(z);
    } else {
      var t := s[..|s| - 1];
      assert (z + s)[..|z + s| - 1] == z + t;
      ParseLeadingZeros(z, t);
    }
  }

  /**
   * Only the places of the '1' characters matter: two texts of the same
   * length with '1' in the same places parse to the same word, whatever the
   * other characters are.
   */
  lemma {:induction false} ParseOnlyOnes(s: seq<char>, t: seq<char>)
    requires |s| == |t|
    requires forall k :: 0 <= k < |s| ==> (s[k] == '1') == (t[k] == '1')
    ensures Parse(s) == Parse(t)
  {
    if s != [] {
      ParseOnlyOnes(s[..|s| - 1], t[..|t| - 1]);
    }
  }

  /** A text of at most 63 characters parses to a word whose bit 63 is clear. */
  lemma ParsedTopClear(t: seq<char>)
    requires |t| <= 63
    ensures !BitOf(Parse(t), 63)
  {
    ParsedBit(t, 63);
    PosTop();
  }

  /** A text of at most 64 characters that starts with '1' parses to a nonzero word. */
  lemma {:induction false} ParseLeadingOne(t: seq<char>)
    requires 1 <= |t| <= 64 && t[0] == '1'
    ensures Parse(t) != 0
  {
    var u := t[..|t| - 1];
    if |t| == 1 {
      assert u == [];
      PushLow(0, '1');
    } else {
      ParseLeadingOne(u);
      ParsedTopClear(u);
      PushNonzero(Parse(u), t[|t| - 1]);
    }
  }

  /** The last character of `Render(w)` shows the lowest bit. */
  lemma RenderLast(w: bv64)
    ensures Render(w)[|Render(w)| - 1] == DigitChar(w)
  {
  }

  /** Above one, the text is the text of the halved word followed by the lowest digit. */
  lemma RenderSplit(w: bv64)
    requires w >= 2
    ensures Render(w) == Render(w >> 1) + [DigitChar(w)]
  {
  }

  /** A one-character text belongs to a word below two. */
  lemma RenderShort(w: bv64)
    ensures |Render(w)| > 1 ==> w >= 2
    ensures w < 2 ==> |Render(w)| == 1
  {
  }

  lemma RenderLowBit(w: bv64)
    ensures (Render(w)[|Render(w)| - 1] == '1') == BitOf(w, 0)
  {
    LowBit(w);
    RenderLast(w);
  }

  /** Bit `n` of `w` is the character `Pos(n)` places from the right of `Render(w)`. */
  lemma {:induction false} RenderBits(w: bv64, n: bv64)
    requires n < 64 && Pos(n) < |Render(w)|
    ensures (Render(w)[|Render(w)| - 1 - Pos(n)] == '1') == BitOf(w, n)
    decreases w
  {
    if n == 0 {
      PosZero();
      RenderLowBit(w);
    } else {
      PosPred(n);
      RenderShort(w);
      RenderSplit(w);
      ShiftOut(w, n);
      RenderBits(w >> 1, n - 1);
    }
  }

  /** Every bit to the left of the text `Render(w)` is clear. */
  lemma {:induction false} RenderHighBits(w: bv64, n: bv64)
    requires n < 64 && |Render(w)| <= Pos(n)
    ensures !BitOf(w, n)
    decreases w
  {
    if w < 2 {
      PosZero();
      SmallWordBits(w, n);
    } else {
      PosPred(n);
      RenderSplit(w);
      ShiftOut(w, n);
      RenderHighBits(w >> 1, n - 1);
    }
  }

  /** The text `Render(w)` has at most 64 characters. */
  lemma {:induction false} RenderLength(w: bv64)
    ensures |Render(w)| <= 64
    decreases w
  {
    if w >= 2 {
      var v := w >> 1;
      RenderLength(v);
      if |Render(v)| == 64 {
        PosTop();
        RenderBits(v, 63);
        ShiftOutTop(w);
        assert false;
      }
    }
  }

  /** `from_binary(as_string())` gives back the word. */
  lemma {:induction false} ParseRender(w: bv64)
    ensures Parse(Render(w)) == w
    decreases w
  {
    if w < 2 {
      assert [DigitChar(w)][..0] == [];
    } else {
      var r := Render(w);
      assert r[..|r| - 1] == Render(w >> 1);
      ParseRender(w >> 1);
      HalveAndPush(w);
    }
  }

  /** Rendering a word with one more digit pushed in adds that digit to the right of its text. */
  lemma RenderPush(v: bv64, c: char)
    requires v != 0 && !BitOf(v, 63)
    requires c == '0' || c == '1'
    ensures Render(Push(v, c)) == Render(v) + [c]
  {
    PushPop(v, c);
    PushLowBit(v, c);
    PushNonzero(v, c);
  }

  /** `as_string` after `from_binary` gives back any canonical text of at most 64 digits. */
  lemma {:induction false} RenderParse(s: seq<char>)
    requires Canonical(s) && |s| <= 64
    ensures Render(Parse(s)) == s
  {
    if |s| == 1 {
      assert s == "0" || s == "1";
      assert s[..0] == [];
    } else {
      var t := s[..|s| - 1];
      assert t[0] == '1';
      assert Canonical(t);
      RenderParse(t);
      ParseLeadingOne(t);
      ParsedTopClear(t);
      RenderPush(Parse(t), s[|s| - 1]);
    }
  }

  // ---------------------------------------------------------------------------
  // The bit array
  // ---------------------------------------------------------------------------

  /** A bit vector of 64 bits held in one word; bit 0 is the least significant. */
  class BitArray {
    var words: bv64

    /** `new`: every bit clear. */
    constructor ()
      ensures words == 0
    {
      words := 0;
    }

    /** `as_number`: the word itself. */
    function AsNumber(): bv64
      reads this
    {
      words
    }

    /** `from_number`: the word is replaced by `n`, not merged with it. */
    method FromNumber(n: bv64)
      modifies this
      ensures AsNumber() == n
    {
      words := n;
    }

    /**
     * `from_binary`: parses `s` most significant character first and replaces
     * the word; any character other than '1' gives a 0 bit.
     */
    method FromBinary(s: seq<char>)
      modifies this
      ensures words == Parse(s)
      ensures forall n: bv64 :: n < 64 ==> Get(n) == (Pos(n) < |s| && s[|s| - 1 - Pos(n)] == '1')
    {
      var acc: bv64 := 0;
      var i := 0;
      while i < |s|
        invariant i <= |s|
        invariant acc == Parse(s[..i])
      {
        ghost var before := acc;
        ParseSnoc(s, i);
        if i > 0 {
          acc := acc << 1;
        } else {
          assert s[..i] == [];
          ZeroShift();
        }
        assert acc == before << 1;
        if s[i] == '1' {
          acc := acc | 1;
          PushOne(before);
        } else {
          PushOther(before, s[i]);
        }
        i := i + 1;
      }
      assert s[..|s|] == s;
      words := acc;
      ParsedBits(s);
    }

    /**
     * `as_string`: the word in base 2, most significant set bit first; the
     * text is canonical, at most 64 characters long, and parses back to the word.
     */
    function AsString(): (r: seq<char>)
      reads this
      ensures Canonical(r) && |r| <= 64
      ensures Parse(r) == words
    {
      ParseRender(words);
      RenderLength(words);
      Render(words)
    }

    /**
     * `get`: whether bit `n` is set.  The answer is the one value that
     * `set(n, _)` can write without changing the word.
     */
    function Get(n: bv64): (b: bool)
      reads this
      requires n < 64
      ensures Assign(words, n, b) == words
      ensures Assign(words, n, !b) != words
    {
      AssignNoChange(words, n, BitOf(words, n));
      AssignSame(words, n, !BitOf(words, n));
      BitOf(words, n)
    }

    /**
     * `set`: bit `n` becomes `b` and every other bit stays as it was; writing
     * the value a bit already has changes nothing.
     */
    method Set(n: bv64, b: bool)
      requires n < 64
      modifies this
      ensures words == Assign(old(words), n, b)
      ensures Get(n) == b
      ensures forall i: bv64 :: i < 64 && i != n ==> Get(i) == old(Get(i))
      ensures old(Get(n)) == b ==> words == old(words)
    {
      if b {
        words := words | Mask(n);
      } else {
        words := words & !Mask(n);
      }
      AssignSame(old(words), n, b);
      AssignOthers(old(words), n, b);
      if old(Get(n)) == b {
        AssignNoChange(old(words), n, b);
      }
    }

    /** `flip`: bit `n` is toggled and every other bit stays as it was. */
    method Flip(n: bv64)
      requires n < 64
      modifies this
      ensures words == Toggle(old(words), n)
      ensures Get(n) == !old(Get(n))
      ensures forall i: bv64 :: i < 64 && i != n ==> Get(i) == old(Get(i))
    {
      words := words ^ Mask(n);
      ToggleSame(old(words), n);
      ToggleOthers(old(words), n);
    }
  }

  /** Flipping the same bit twice restores the word. */
  method FlipTwice(a: BitArray, n: bv64)
    requires n < 64
    modifies a
    ensures a.words == old(a.words)
  {
    a.Flip(n);
    a.Flip(n);
    ToggleTwice(old(a.words), n);
  }
}
