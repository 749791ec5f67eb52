/**
 * The enemy formation: a 5 by 5 block of positions centred horizontally on
 * the canvas, computed column by column.
 */
module Enemies {
  import opened Objects

  /** Enemies per row and per column. */
  const MonsterTotal: nat := 5
  /** Horizontal distance between neighbouring columns; vertical distance between rows. */
  const ColumnStep: real := 98.0
  const RowStep: real := 50.0
  /** Width of the whole block of columns. */
  const MonsterWidth: real := MonsterTotal as real * ColumnStep

  /** Left edge of the block: what is left of the canvas width, split evenly on both sides. */
  function StartX(width: nat): real
  {
    (width as real - MonsterWidth) / 2.0
  }

  /** Right end (exclusive) of the block. */
  function StopX(width: nat): real
  {
    StartX(width) + MonsterWidth
  }

  /** The k-th position of the formation: column k / 5, row k % 5 (column-major order). */
  function GridAt(width: nat, k: nat): Pos
  {
    Pos(StartX(width) + ColumnStep * (k / MonsterTotal) as real, RowStep * (k % MonsterTotal) as real)
  }

  /** Index 5·i + j of the formation has column i and row j: it is (StartX + 98·i, 50·j). */
  lemma GridIndex(width: nat, i: nat, j: nat)
    requires j < MonsterTotal
    ensures (MonsterTotal * i + j) / MonsterTotal == i && (MonsterTotal * i + j) % MonsterTotal == j
    ensures GridAt(width, MonsterTotal * i + j) == Pos(StartX(width) + ColumnStep * i as real, RowStep * j as real)
  {
  }

  /**
   * Computes the enemy positions with the two loops of `createEnemies`: columns from
   * StartX while the left edge is short of StopX, rows from 0 while short of 250.
   */
  method CreateEnemies(width: nat) returns (positions: seq<Pos>)
    ensures |positions| == MonsterTotal * MonsterTotal
    ensures forall k :: 0 <= k < |positions| ==> positions[k] == GridAt(width, k)
  {
    var startX := StartX(width);
    var stopX := startX + MonsterWidth;
    positions := [];
    var x := startX;
    ghost var i: nat := 0;
    while x < stopX
      invariant i <= MonsterTotal
      invariant x == startX + ColumnStep * i as real
      invariant |positions| == MonsterTotal * i
      invariant forall k :: 0 <= k < |positions| ==> positions[k] == GridAt(width, k)
      decreases MonsterTotal - i
    {
      var y := 0.0;
      ghost var j: nat := 0;
      while y < RowStep * MonsterTotal as real
        invariant j <= MonsterTotal
        invariant y == RowStep * j as real
        invariant |positions| == MonsterTotal * i + j
        invariant forall k :: 0 <= k < |positions| ==> positions[k] == GridAt(width, k)
        decreases MonsterTotal - j
      {
        GridIndex(width, i, j);
        positions := positions + [Pos(x, y)];
        y := y + RowStep;
        j := j + 1;
      }
      x := x + ColumnStep;
      i := i + 1;
    }
  }

  /**
   * Every position lies in the block: x in [StartX, StopX), y in [0, 250);
   * the first column starts at StartX and one more column step after the
   * last one reaches StopX exactly.
   */
  lemma GridExtent(width: nat, k: nat)
    requires k < MonsterTotal * MonsterTotal
    ensures StartX(width) <= GridAt(width, k).x < StopX(width)
    ensures 0.0 <= GridAt(width, k).y < RowStep * MonsterTotal as real
    ensures GridAt(width, 0).x == StartX(width)
    ensures GridAt(width, MonsterTotal * MonsterTotal - 1).x + ColumnStep == StopX(width)
  {
    assert k / MonsterTotal < MonsterTotal;
  }

  /** The block is centred: the margins left and right of it are equal. */
  lemma GridCentred(width: nat)
    ensures StartX(width) + StopX(width) == width as real
  {
  }

  /** The 25 positions are pairwise distinct, so 25 enemies are placed. */
  lemma GridDistinct(width: nat, k: nat, l: nat)
    requires k < MonsterTotal * MonsterTotal && l < MonsterTotal * MonsterTotal
    requires k != l
    ensures GridAt(width, k) != GridAt(width, l)
  {
    if k / MonsterTotal == l / MonsterTotal {
      assert k % MonsterTotal != l % MonsterTotal;
    }
  }

  /** On an 800-pixel canvas the block starts at x = 155 and ends before x = 645. */
  lemma Grid800()
    ensures StartX(800) == 155.0 && StopX(800) == 645.0
    ensures GridAt(800, 24) == Pos(547.0, 200.0)
  {
  }
}
