# BitArray: a 64-bit bit vector, modelled in Dafny

The crate has one type, `BitArray` (`src/lib.rs`). It keeps a bit vector in a
single `u64` field, `words`. Its operations are:

- `new`, which starts with every bit clear;
- `as_number` and `from_number`, which read and replace the word;
- `from_binary` and `as_string`, which convert to and from base-2 text;
- `get`, `set` and `flip`, which work on one bit.

`bitarray.dfy` (module `BitArrays`) models the type. `tests.dfy` (module
`BitArrayTests`) restates the crate's unit tests as client code. Each
assertion there follows from the methods' contracts and the definitions of the
functions that read the word (`AsNumber`, `AsString` and `Get`).

The word and the bit index are `bv64`, the exact counterpart of `u64`. Shifts,
masks and high bits dropped by `<<` behave as in Rust. `BitArray` is a class
with the field `words`. `from_number`, `from_binary`, `set` and `flip` are
methods that overwrite the field in place. `as_number`, `as_string` and `get`
are functions that read it. Word-level functions say what each operation
computes:

- `Mask` is `1 << n`, the one-bit mask the `set`, `get` and `flip` tests
  presuppose (the crate itself has no shift: those operations are stubs);
- `BitOf` is `(words & (1 << n)) != 0`, bit `n` as the `get` test expects it;
- `Assign` and `Toggle` are the words after `set` and `flip`;
- `Parse` is the word `from_binary` builds;
- `Render` is the text `as_string` shows.

Lemmas relate these functions to each other: round trips, and bit-by-bit
descriptions of parsed words and rendered texts.

In the crate as written, only `new`, `as_number` and `from_number` have bodies
(`src/lib.rs:8-18`). `from_binary`, `as_string`, `set`, `get` and `flip` are
stubs. They parse nothing and render `""`. `set` and `flip` change nothing, and
`get` always answers `false`. The unit tests (`src/lib.rs:123-376`) fix the
intended behaviour, and that is what this model follows:

- `from_binary` starts from zero and reads the text most significant character
  first. For each character it shifts the word left by one, skipping the shift
  before the first character. It then ors in a 1 when the character is '1'.
  Any other character, '0' or not, gives a 0 bit and is not an error.
- `as_string` is the conventional base-2 text: no leading zeros, and "0" for
  zero.
- `set` ors in `1 << n` when `b` is true. Otherwise it ands with the
  complement. `flip` xors with `1 << n`, and `get` tests `words & (1 << n)`.

Text longer than 64 characters is accepted. As in a `u64`, bits shifted past
bit 63 are lost, so only the last 64 characters decide the word. `ParsedBit`
states this.

`AsNumber` is the word itself and has no contract of its own. The `FromNumber`
row covers both `as_number` and `from_number`.

## Model

| member | source | states |
|---|---|---|
| `BitArrays.BitArray.constructor` | src/lib.rs:8-10 | a new bit array has the word 0 |
| `BitArrays.BitArray.FromNumber` | src/lib.rs:12-18 | afterwards `as_number` returns exactly `n`: the old word is replaced, not merged |
| `BitArrays.BitArray.FromBinary` | src/lib.rs:20-22 | the word becomes `Parse(s)`, whatever it was before; for every bit index `n` below 64, `get(n)` is true exactly when the character `n` places from the right of `s` (counting from 0) is '1' |
| `BitArrays.BitArray.AsString` | src/lib.rs:24-26 | the text is canonical base 2 of at most 64 characters, and `from_binary` of it gives back the word |
| `BitArrays.BitArray.Get` | src/lib.rs:32-34 | the answer is the one value that `set(n, _)` can write without changing the word, so it is bit `n` |
| `BitArrays.BitArray.Set` | src/lib.rs:28-30 | the word becomes `Assign(old word, n, b)`; afterwards `get(n) == b`, every other bit keeps its value, and writing the value a bit already has changes nothing |
| `BitArrays.BitArray.Flip` | src/lib.rs:36-38 | the word becomes `Toggle(old word, n)`; bit `n` is inverted and every other bit keeps its value |
| `BitArrays.FlipTwice` | src/lib.rs:338-376 | two `flip(n)` calls in a row restore the word |
| `BitArrays.AssignSame` | src/lib.rs:233-294 | after `set(n, b)`, bit `n` is `b` |
| `BitArrays.AssignOthers` | src/lib.rs:233-294 | `set(n, b)` leaves every bit other than `n` unchanged |
| `BitArrays.AssignNoChange` | src/lib.rs:271-286 | clearing a bit that is already clear, or setting one already set, leaves the word unchanged (170 stays 170 for bits 0 and 2) |
| `BitArrays.ToggleSame` | src/lib.rs:338-376 | `flip(n)` inverts bit `n` |
| `BitArrays.ToggleOthers` | src/lib.rs:338-376 | `flip(n)` leaves every bit other than `n` unchanged |
| `BitArrays.ToggleTwice` | src/lib.rs:338-376 | toggling the same bit twice gives back the word |
| `BitArrays.Render` | src/lib.rs:182-231 | the text of a word has binary digits only, no leading zero, and is "0" exactly for the word 0 |
| `BitArrays.ParsedBit` | src/lib.rs:123-180 | bit `n` (below 64) of the parsed word is set exactly when the character `n` places from the right (counting from 0) is '1'; characters 64 or more places from the right have no effect |
| `BitArrays.ParseNoOnes` | src/lib.rs:130-141 | a text without a '1' ("", "x", "0", "00000000") parses to 0 |
| `BitArrays.ParseLeadingZeros` | src/lib.rs:158-165 | leading characters other than '1' do not change the parsed word ("00001000" gives 8) |
| `BitArrays.ParseOnlyOnes` | src/lib.rs:134-141 | two texts of one length with '1' in the same places parse to the same word, whatever their other characters |
| `BitArrays.ParseSnoc` | src/lib.rs:20-22 | the loop-step lemma of `from_binary`: one more pass of the loop over a prefix of `s` is one more shift-and-or step |
| `BitArrays.RenderBits` | src/lib.rs:182-231 | the character `n` places from the right of the text (counting from 0) is '1' exactly when bit `n` of the word is set |
| `BitArrays.RenderHighBits` | src/lib.rs:182-231 | every bit to the left of the text is clear, so the text has no missing high digit |
| `BitArrays.RenderLength` | src/lib.rs:182-231 | the text of a 64-bit word has at most 64 characters |
| `BitArrays.ParseRender` | src/lib.rs:217-223 | `from_binary(as_string())` gives back every word (255 and "11111111", 155 and "10011011") |
| `BitArrays.RenderParse` | src/lib.rs:166-173 | `as_string` after `from_binary` gives back every canonical text of at most 64 digits |
| `BitArrayTests.ParseCases` | src/lib.rs:130-173 | the words the `from_binary` test expects: "", "x", "0" and "00000000" give 0, "1" gives 1, "10" gives 2, "11" gives 3, "101" gives 5, "00001000" gives 8, "11111111" gives 255, "10011011" gives 155 |
| `BitArrayTests.RenderCases` | src/lib.rs:189-224 | the texts the `as_string` test expects: 0, 1, 2, 3, 5, 8, 255 and 155 give "0", "1", "10", "11", "101", "1000", "11111111" and "10011011" |
| `BitArrayTests.AsNumberCases` | src/lib.rs:48-89 | running the test's loop, `from_number(x)` then `as_number()` on a fresh instance, returns exactly the inputs 0, 1, 2, 10, 123, 255 and 1024 |
| `BitArrayTests.FromNumberCases` | src/lib.rs:92-121 | the same read-back returns exactly 0, 1, 37 and 255 |
| `BitArrayTests.FromBinaryCases` | src/lib.rs:123-180 | `from_binary` then `as_number` returns the expected column of the whole table: 0, 0, 0, 1, 2, 3, 5, 8, 0, 255, 155 |
| `BitArrayTests.AsStringCases` | src/lib.rs:182-231 | `from_number` then `as_string` returns the expected column of the whole table, "0" to "10011011" |
| `BitArrayTests.SetOnCases` | src/lib.rs:233-262 | `set(n, true)` on a fresh instance returns 1, 2, 4 and 8 for bits 0 to 3 |
| `BitArrayTests.SetOffCases` | src/lib.rs:264-294 | `set(n, false)` on 170 returns 170, 168, 170 and 162 for bits 0 to 3 |
| `BitArrayTests.FlipCases` | src/lib.rs:338-376 | `flip` returns the expected column of the whole table: (0, 0) gives 1, (1, 0) gives 0, (2, 0) gives 3, (5, 1) gives 7, (13, 2) gives 9, (255, 7) gives 127 |
| `BitArrayTests.GetTestAsWritten` | src/lib.rs:331-335 | on a fresh instance, `get(0)` is false, while the test expects true |
| `BitArrayTests.GetTestCorrected` | src/lib.rs:302-329 | after chained `set` calls turn on bits 0, 2, 4, 5 and 6 (the word 117), bits 0..6 read back as the test expects |

## Left out

- The `&mut BitArray` that `set` returns for chaining. Chained calls are modelled as `set` calls made one after another. Nothing observable depends on the returned reference.
- Bit indices of 64 or more. `Get`, `Set` and `Flip` require `n < 64`. Rust's `1 << n` panics there in debug builds and masks the shift amount in release builds. Neither behaviour is modelled.
- Rust `String`/`&str` allocation and UTF-8 encoding. Text is `seq<char>`, one element per character, as `chars()` yields them.
- The test harness: the `TestCase` structs and `assert_eq!`. Each test method in `tests.dfy` returns the values it reads back, and its postcondition is the table's expected column. Only `AsNumberCases` keeps the loop over its inputs; the others run their rows one after another.
- Performance, and the fact that the stubbed bodies in the crate do not yet do what their tests expect. The model follows the tests.

## Findings

| source | as written | input that shows it | evidently intended | confidence | as-written member | corrected member |
|---|---|---|---|---|---|---|
| src/lib.rs:331-335 | the `get` test calls `get` on a fresh `BitArray::new()`, whose word is 0, and expects bits 0, 2, 4, 5 and 6 to be set | `get(0)` on a fresh instance, expected `true` | the instance first gets bits 0, 2, 4, 5 and 6 set (the word 117), for instance by chained `set` calls | not executed | `BitArrayTests.GetTestAsWritten` | `BitArrayTests.GetTestCorrected` |
