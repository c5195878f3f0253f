/** Placement of the keyboard's key rows: a row of `k` keys is centred on a
    ten-key grid that starts at `startX`, one key every `spacingX`. */
module KeyLayout {

  /** `size_t` arithmetic: unsigned and wrapping, taken 64 bits wide as on
      a 64-bit build (a 32-bit build wraps modulo 2^32). */
  const SizeModulus: int := 0x1_0000_0000_0000_0000

  /** The row's first x, as written: `10 - keys.size()` is computed on
      `size_t` and only then converted to a float. */
  function RowOffsetAsWritten(startX: real, k: nat): (r: real)
    ensures k <= 10 ==> r == RowOffset(startX, k)
    ensures 10 < k <= 10 + SizeModulus ==> r == startX + (SizeModulus - (k - 10)) as real * 0.5
  {
    startX + ((10 - k) % SizeModulus) as real * 0.5
  }

  /** The row's first x as intended: half a key per missing key, so that
      at unit spacing the middle of a k-key row is the middle of the
      ten-key grid, startX + 4.5. */
  function RowOffset(startX: real, k: nat): (r: real)
    ensures r + (k as real - 1.0) * 0.5 == startX + 4.5
  {
    startX + (10 - k) as real * 0.5
  }

  /** x of key `i` in a row of `k` keys. */
  function KeyX(startX: real, spacingX: real, k: nat, i: nat): (x: real)
    ensures spacingX == 1.0 && i < k ==> x + (RowOffset(startX, k) + (k - 1 - i) as real) == 2.0 * (startX + 4.5)
  {
    RowOffset(startX, k) + i as real * spacingX
  }

  /** x of key `i` in a row of `k` keys, as written. */
  function KeyXAsWritten(startX: real, spacingX: real, k: nat, i: int): (x: real)
    ensures k <= 10 && 0 <= i ==> x == KeyX(startX, spacingX, k, i)
  {
    RowOffsetAsWritten(startX, k) + i as real * spacingX
  }

  /** For every row of at most ten keys the two offsets agree. */
  lemma OffsetAgreesUpToTen(startX: real, k: nat)
    requires k <= 10
    ensures RowOffsetAsWritten(startX, k) == RowOffset(startX, k)
    ensures forall spacingX: real, i: nat :: KeyXAsWritten(startX, spacingX, k, i) == KeyX(startX, spacingX, k, i)
  {
  }

  /** An eleven-key row: the subtraction wraps to 2^64 - 1 and the row is
      placed about 9.2e18 units away instead of half a key to the left. */
  lemma LongRowWraps(startX: real)
    ensures RowOffset(startX, 11) == startX - 0.5
    ensures RowOffsetAsWritten(startX, 11) == startX + (SizeModulus - 1) as real * 0.5
    ensures RowOffsetAsWritten(startX, 11) - RowOffset(startX, 11) == SizeModulus as real * 0.5
  {
    assert (10 - 11) % SizeModulus == SizeModulus - 1;
  }

  /** The row layout: the first key at `startX + (10 - k) / 2`, then one key
      every `spacingX`. */
  lemma RowLayout(startX: real, spacingX: real, k: nat, i: nat)
    ensures KeyX(startX, spacingX, k, 0) == startX + (10 - k) as real * 0.5
    ensures KeyX(startX, spacingX, k, i + 1) - KeyX(startX, spacingX, k, i) == spacingX
  {
  }

  /** With the scene's grid (startX = -4.5, spacingX = 1) every row is
      symmetric about x = 0: key i and key k - 1 - i mirror each other. */
  lemma RowsCentred(k: nat, i: nat)
    requires i < k
    ensures KeyX(-4.5, 1.0, k, i) == -KeyX(-4.5, 1.0, k, k - 1 - i)
  {
  }

  /** The seven-key row runs from -3 to 3; the ten-key row from -4.5 to 4.5. */
  lemma SceneRows()
    ensures KeyX(-4.5, 1.0, 7, 0) == -3.0 && KeyX(-4.5, 1.0, 7, 6) == 3.0
    ensures KeyX(-4.5, 1.0, 9, 0) == -4.0 && KeyX(-4.5, 1.0, 9, 8) == 4.0
    ensures KeyX(-4.5, 1.0, 10, 0) == -4.5 && KeyX(-4.5, 1.0, 10, 9) == 4.5
  {
  }
}
