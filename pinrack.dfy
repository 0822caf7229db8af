/**
 * The pin layout of `CreateBowlingPin`: an outer loop over rows i = 1..5 that advances
 * zPos by one and moves xPos back by i / 1.4 (from row 2 on), and an inner loop that
 * advances xPos by one and places a pin i - 1 times.
 */
module PinRack {
  import opened Vectors

  const Rows: nat := 5
  /** Every pin clone is placed at this height. */
  const PinHeight: real := 0.1

  /** xPos when row i's inner loop starts. */
  function RowStart(i: nat): real
    decreases i, 0
  {
    if i <= 1 then 0.0 else RowEnd(i - 1) - (i as real) / 1.4
  }

  /** xPos when the outer iteration for row i is over (0 before the first row). */
  function RowEnd(i: nat): real
    decreases i, 1
  {
    if i == 0 then 0.0 else RowStart(i) + ((i - 1) as real)
  }

  /** The pins row i places, in placement order. */
  function Row(i: nat): seq<Vec3>
    requires i >= 1
  {
    seq(i - 1, j => Vec3(RowStart(i) + ((j + 1) as real), PinHeight, i as real))
  }

  /** The pins placed by rows 1..n, in placement order. */
  function RowsUpTo(n: nat): seq<Vec3>
  {
    if n == 0 then [] else RowsUpTo(n - 1) + Row(n)
  }

  /** The whole rack. */
  function Rack(): seq<Vec3>
  {
    RowsUpTo(Rows)
  }

  /** Row i holds i - 1 pins at z = i and height 0.1, each 1 to the right of the one before. */
  lemma RowShape(i: nat)
    requires i >= 1
    ensures |Row(i)| == i - 1
    ensures forall j :: 0 <= j < |Row(i)| ==> Row(i)[j].z == i as real && Row(i)[j].y == PinHeight
    ensures forall j :: 0 < j < |Row(i)| ==> Row(i)[j].x == Row(i)[j - 1].x + 1.0
  {
  }

  /** Rows 1..n hold n(n-1)/2 pins. */
  lemma {:induction false} RowsUpToLength(n: nat)
    ensures 2 * |RowsUpTo(n)| == n * (n - 1)
  {
    if n > 0 {
      RowsUpToLength(n - 1);
    }
  }

  /** The rack places exactly 10 pins. */
  lemma RackHasTenPins()
    ensures |Rack()| == 10
  {
    RowsUpToLength(Rows);
  }

  /** Row k occupies the slice that follows the pins of rows 1..k-1. */
  lemma {:induction false} RowInRack(n: nat, k: nat)
    requires 1 <= k <= n
    ensures |RowsUpTo(k - 1)| <= |RowsUpTo(k)| <= |RowsUpTo(n)|
    ensures RowsUpTo(n)[|RowsUpTo(k - 1)|..|RowsUpTo(k)|] == Row(k)
  {
    if k < n {
      RowInRack(n - 1, k);
      assert RowsUpTo(n) == RowsUpTo(n - 1) + Row(n);
      assert RowsUpTo(n)[..|RowsUpTo(n - 1)|] == RowsUpTo(n - 1);
    } else {
      assert RowsUpTo(n) == RowsUpTo(n - 1) + Row(n);
    }
  }

  /** Every pin of rows 1..n stands at height 0.1. */
  lemma {:induction false} AllAtPinHeight(n: nat)
    ensures forall p :: p in RowsUpTo(n) ==> p.y == PinHeight
  {
    if n > 0 {
      AllAtPinHeight(n - 1);
      RowShape(n);
    }
  }

  /** The rack row by row: no pin at z = 1, then rows of 1, 2, 3 and 4 pins at z = 2..5. */
  lemma RackByRows()
    ensures Rack() == Row(2) + Row(3) + Row(4) + Row(5)
    ensures forall p :: p in Rack() ==> p.y == PinHeight
  {
    assert RowsUpTo(1) == [];
    AllAtPinHeight(Rows);
  }

  /** The exact positions (x, z) that the loop produces, in placement order. */
  lemma RackCoordinates()
    ensures Rack() == [
      Vec3(-3.0 / 7.0, PinHeight, 2.0),
      Vec3(-11.0 / 7.0, PinHeight, 3.0), Vec3(-4.0 / 7.0, PinHeight, 3.0),
      Vec3(-17.0 / 7.0, PinHeight, 4.0), Vec3(-10.0 / 7.0, PinHeight, 4.0), Vec3(-3.0 / 7.0, PinHeight, 4.0),
      Vec3(-3.0, PinHeight, 5.0), Vec3(-2.0, PinHeight, 5.0), Vec3(-1.0, PinHeight, 5.0), Vec3(0.0, PinHeight, 5.0)]
  {
    assert RowStart(2) == -10.0 / 7.0;
    assert RowEnd(2) == -3.0 / 7.0;
    assert RowStart(3) == -18.0 / 7.0;
    assert RowEnd(3) == -4.0 / 7.0;
    assert RowStart(4) == -24.0 / 7.0;
    assert RowEnd(4) == -3.0 / 7.0;
    assert RowStart(5) == -4.0;
    RackByRows();
  }
}
