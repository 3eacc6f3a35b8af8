/**
 * The literal scenarios of the crate's unit tests, as client code of the
 * `BitArray` class: each assertion follows from the methods' contracts and
 * the definitions of the functions that read the word (`AsNumber`,
 * `AsString`, `Get`).
 */
module BitArrayTests {
  import opened BitArrays

  lemma ParseEight(s: seq<char>)
    requires |s| == 8
    ensures Parse(s) == Push(Push(Push(Push(Push(Push(Push(Push(0, s[0]), s[1]), s[2]), s[3]), s[4]), s[5]), s[6]), s[7])
  {
    ParseSnoc(s, 0);
    ParseSnoc(s, 1);
    ParseSnoc(s, 2);
    ParseSnoc(s, 3);
    ParseSnoc(s, 4);
    ParseSnoc(s, 5);
    ParseSnoc(s, 6);
    ParseSnoc(s, 7);
    assert s[..0] == [] && s[..8] == s;
  }

  lemma ParseOne(s: seq<char>)
    requires |s| == 1
    ensures Parse(s) == Push(0, s[0])
  {
    ParseSnoc(s, 0);
    assert s[..0] == [] && s[..1] == s;
  }

  lemma ParseTwo(s: seq<char>)
    requires |s| == 2
    ensures Parse(s) == Push(Push(0, s[0]), s[1])
  {
    ParseSnoc(s, 0);
    ParseSnoc(s, 1);
    assert s[..0] == [] && s[..2] == s;
  }

  lemma ParseFour(s: seq<char>)
    requires |s| == 4
    ensures Parse(s) == Push(Push(Push(Push(0, s[0]), s[1]), s[2]), s[3])
  {
    ParseSnoc(s, 0);
    ParseSnoc(s, 1);
    ParseSnoc(s, 2);
    ParseSnoc(s, 3);
    assert s[..0] == [] && s[..4] == s;
  }

  lemma ParseThree(s: seq<char>)
    requires |s| == 3
    ensures Parse(s) == Push(Push(Push(0, s[0]), s[1]), s[2])
  {
    ParseSnoc(s, 0);
    ParseSnoc(s, 1);
    ParseSnoc(s, 2);
    assert s[..0] == [] && s[..3] == s;
  }

  /** The words the `from_binary` test expects. */
  lemma ParseCases()
    ensures Parse("") == 0 && Parse("x") == 0 && Parse("0") == 0 && Parse("00000000") == 0
    ensures Parse("1") == 1 && Parse("10") == 2 && Parse("11") == 3
    ensures Parse("101") == 5
    ensures Parse("1000") == 8
    ensures Parse("00001000") == 8
    ensures Parse("11111111") == 255
    ensures Parse("10011011") == 155
  {
    ParseNoOnes("x");
    ParseNoOnes("0");
    ParseNoOnes("00000000");
    ParseOne("1");
    ParseTwo("10");
    ParseTwo("11");
    ParseFour("1000");
    ParseThree("101");
    ParseEight("00001000");
    ParseEight("11111111");
    ParseEight("10011011");
  }

  /** The texts the `as_string` test expects, by the round trip from `ParseCases`. */
  lemma RenderCases()
    ensures Render(0) == "0" && Render(1) == "1" && Render(2) == "10" && Render(3) == "11"
    ensures Render(5) == "101" && Render(8) == "1000"
    ensures Render(255) == "11111111"
    ensures Render(155) == "10011011"
  {
    ParseCases();
    RenderParse("1");
    RenderParse("10");
    RenderParse("11");
    RenderParse("101");
    RenderParse("1000");
    RenderParse("11111111");
    RenderParse("10011011");
  }

  /**
   * The `as_number` test: `from_number` then `as_number` on a fresh instance,
   * for each input of its table; the results are the inputs.
   */
  method AsNumberCases() returns (outs: seq<bv64>)
    ensures outs == [0, 1, 2, 10, 123, 255, 1024]
  {
    var inputs: seq<bv64> := [0, 1, 2, 10, 123, 255, 1024];
    outs := [];
    var k := 0;
    while k < |inputs|
      invariant k <= |inputs|
      invariant outs == inputs[..k]
    {
      var a := new BitArray();
      a.FromNumber(inputs[k]);
      outs := outs + [a.AsNumber()];
      k := k + 1;
    }
  }

  /** The `from_number` test. */
  method FromNumberCases() returns (outs: seq<bv64>)
    ensures outs == [0, 1, 37, 255]
  {
    var a := new BitArray();
    a.FromNumber(0);
    var r0 := a.AsNumber();
    a := new BitArray();
    a.FromNumber(1);
    var r1 := a.AsNumber();
    a := new BitArray();
    a.FromNumber(37);
    var r2 := a.AsNumber();
    a := new BitArray();
    a.FromNumber(255);
    var r3 := a.AsNumber();
    outs := [r0, r1, r2, r3];
  }

  /** `from_binary(s)` on a fresh instance, read back with `as_number`. */
  method ParsedOnFresh(s: seq<char>) returns (r: bv64)
    ensures r == Parse(s)
  {
    var a := new BitArray();
    a.FromBinary(s);
    r := a.AsNumber();
  }

  /**
   * The `from_binary` test, for the inputs "", "x", "0", "1", "10", "11",
   * "101", "00001000", "00000000", "11111111" and "10011011".
   */
  method FromBinaryCases() returns (outs: seq<bv64>)
    ensures outs == [0, 0, 0, 1, 2, 3, 5, 8, 0, 255, 155]
  {
    ParseCases();
    var r0 := ParsedOnFresh("");
    var r1 := ParsedOnFresh("x");
    var r2 := ParsedOnFresh("0");
    var r3 := ParsedOnFresh("1");
    var r4 := ParsedOnFresh("10");
    var r5 := ParsedOnFresh("11");
    var r6 := ParsedOnFresh("101");
    var r7 := ParsedOnFresh("00001000");
    var r8 := ParsedOnFresh("00000000");
    var r9 := ParsedOnFresh("11111111");
    var r10 := ParsedOnFresh("10011011");
    outs := [r0, r1, r2, r3, r4, r5, r6, r7, r8, r9, r10];
  }

  /** `from_number(x)` on a fresh instance, shown with `as_string`. */
  method RenderedOnFresh(x: bv64) returns (r: seq<char>)
    ensures r == Render(x)
  {
    var a := new BitArray();
    a.FromNumber(x);
    r := a.AsString();
  }

  /** The `as_string` test, for the inputs 0, 1, 2, 3, 5, 8, 0, 255 and 155. */
  method AsStringCases() returns (outs: seq<seq<char>>)
    ensures outs == ["0", "1", "10", "11", "101", "1000", "0", "11111111", "10011011"]
  {
    RenderCases();
    var r0 := RenderedOnFresh(0);
    var r1 := RenderedOnFresh(1);
    var r2 := RenderedOnFresh(2);
    var r3 := RenderedOnFresh(3);
    var r4 := RenderedOnFresh(5);
    var r5 := RenderedOnFresh(8);
    var r6 := RenderedOnFresh(0);
    var r7 := RenderedOnFresh(255);
    var r8 := RenderedOnFresh(155);
    outs := [r0, r1, r2, r3, r4, r5, r6, r7, r8];
  }

  /** `set(n, b)` on an instance holding `x`, read back with `as_number`. */
  method SetOn(x: bv64, n: bv64, b: bool) returns (r: bv64)
    requires n < 64
    ensures r == Assign(x, n, b)
  {
    var a := new BitArray();
    a.FromNumber(x);
    a.Set(n, b);
    r := a.AsNumber();
  }

  /** The `set_on` test: bits 0 to 3 set in a fresh instance. */
  method SetOnCases() returns (outs: seq<bv64>)
    ensures outs == [1, 2, 4, 8]
  {
    var r0 := SetOn(0, 0, true);
    var r1 := SetOn(0, 1, true);
    var r2 := SetOn(0, 2, true);
    var r3 := SetOn(0, 3, true);
    outs := [r0, r1, r2, r3];
  }

  /** The `set_off` test: bits 0 to 3 cleared in the word 170. */
  method SetOffCases() returns (outs: seq<bv64>)
    ensures outs == [170, 168, 170, 162]
  {
    var r0 := SetOn(170, 0, false);
    var r1 := SetOn(170, 1, false);
    var r2 := SetOn(170, 2, false);
    var r3 := SetOn(170, 3, false);
    outs := [r0, r1, r2, r3];
  }

  /**
   * The `get` test as written: it asks a fresh, all-clear instance for bit 0,
   * which is not set, although the test expects it to be.
   */
  method GetTestAsWritten() returns (b: bool)
    ensures !b
  {
    var a := new BitArray();
    b := a.Get(0);
  }

  /**
   * The `get` test as intended: bits 0, 2, 4, 5 and 6 set by chained `set`
   * calls from zero (the word 117), then bits 0..6 read back.
   */
  method GetTestCorrected() returns (bits: seq<bool>)
    ensures bits == [true, false, true, false, true, true, true]
  {
    var a := new BitArray();
    a.Set(0, true);
    a.Set(2, true);
    a.Set(4, true);
    a.Set(5, true);
    a.Set(6, true);
    assert a.AsNumber() == 117;
    bits := [a.Get(0), a.Get(1), a.Get(2), a.Get(3), a.Get(4), a.Get(5), a.Get(6)];
  }

  /** `flip(n)` on an instance holding `x`, read back with `as_number`. */
  method FlipOn(x: bv64, n: bv64) returns (r: bv64)
    requires n < 64
    ensures r == Toggle(x, n)
  {
    var a := new BitArray();
    a.FromNumber(x);
    a.Flip(n);
    r := a.AsNumber();
  }

  /** The `flip` test, for the inputs (0, 0), (1, 0), (2, 0), (5, 1), (13, 2) and (255, 7). */
  method FlipCases() returns (outs: seq<bv64>)
    ensures outs == [1, 0, 3, 7, 9, 127]
  {
    var r0 := FlipOn(0, 0);
    var r1 := FlipOn(1, 0);
    var r2 := FlipOn(2, 0);
    var r3 := FlipOn(5, 1);
    var r4 := FlipOn(13, 2);
    var r5 := FlipOn(255, 7);
    outs := [r0, r1, r2, r3, r4, r5];
  }
}
