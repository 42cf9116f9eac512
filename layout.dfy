/**
 * The block grid of the breakout game: its constants, the six-colour
 * palette, the block record, and the layout that `createBlocks` produces.
 */
module Layout {

  const Rows: nat := 10
  const Cols: nat := 10
  const BlockWidth: real := 0.2
  const BlockHeight: real := 0.1
  const SpacingX: real := 0.001
  const SpacingY: real := 0.001

  /** Half-extents of a block as the collision test writes them. */
  const HalfWidth: real := 0.1
  const HalfHeight: real := 0.05

  /** An RGBA colour, each channel in [0, 1]. */
  datatype Color = Color(r: real, g: real, b: real, a: real)

  const Palette: seq<Color> := [
    Color(1.0, 0.0, 0.0, 1.0), // red
    Color(0.0, 1.0, 0.0, 1.0), // green
    Color(0.0, 0.0, 1.0, 1.0), // blue
    Color(1.0, 1.0, 0.0, 1.0), // yellow
    Color(1.0, 0.0, 1.0, 1.0), // magenta
    Color(0.0, 1.0, 1.0, 1.0)  // cyan
  ]

  /** One block: its centre, whether it has been destroyed, and its colour. */
  datatype Block = Block(x: real, y: real, hit: bool, color: Color)

  /** The block `createBlocks` places at (row, col). */
  function ExpectedBlock(row: nat, col: nat): (b: Block)
    ensures b.x == -0.9 + 0.201 * (col as real) && b.y == 1.0 - 0.101 * (row as real)
    ensures !b.hit && b.color == Palette[(row + col) % 6]
  {
    Block(-1.0 + (BlockWidth + SpacingX) * (col as real) + BlockWidth / 2.0,
          1.0 - (BlockHeight + SpacingY) * (row as real),
          false,
          Palette[(row + col) % |Palette|])
  }

  /** The whole grid in row-major order: block `row * Cols + col` is `ExpectedBlock(row, col)`. */
  function FreshGrid(): (g: seq<Block>)
    ensures |g| == Rows * Cols
    ensures forall i :: 0 <= i < |g| ==> g[i] == ExpectedBlock(i / Cols, i % Cols)
    ensures forall i :: 0 <= i < |g| ==> !g[i].hit
  {
    seq(Rows * Cols, i requires 0 <= i < Rows * Cols => ExpectedBlock(i / Cols, i % Cols))
  }

  /** Block `row * Cols + col` of the fresh grid is the one placed at (row, col). */
  lemma GridSlot(row: nat, col: nat)
    requires row < Rows && col < Cols
    ensures row * Cols + col < |FreshGrid()|
    ensures FreshGrid()[row * Cols + col] == ExpectedBlock(row, col)
  {
    var i := row * Cols + col;
    assert i / Cols == row && i % Cols == col;
  }

  /** The ball point lies strictly inside the block's box. */
  predicate Contains(b: Block, px: real, py: real)
  {
    px > b.x - HalfWidth && px < b.x + HalfWidth &&
    py > b.y - HalfHeight && py < b.y + HalfHeight
  }

  /** Two blocks occupy the same slot: same centre and colour, whatever their flags. */
  predicate SameSlot(a: Block, b: Block)
  {
    a.x == b.x && a.y == b.y && a.color == b.color
  }

  /** `bs` is a prefix of the fresh grid up to the `hit` flags. */
  predicate OnGrid(bs: seq<Block>)
  {
    |bs| <= Rows * Cols &&
    forall k :: 0 <= k < |bs| ==> SameSlot(bs[k], FreshGrid()[k])
  }

  /** Number of destroyed blocks. */
  function HitCount(bs: seq<Block>): (n: nat)
    ensures n <= |bs|
  {
    if bs == [] then 0
    else HitCount(bs[..|bs| - 1]) + (if bs[|bs| - 1].hit then 1 else 0)
  }

  /** Nothing is destroyed in a sequence of unhit blocks. */
  lemma {:induction false} HitCountNone(bs: seq<Block>)
    requires forall k :: 0 <= k < |bs| ==> !bs[k].hit
    ensures HitCount(bs) == 0
  {
    if bs != [] {
      HitCountNone(bs[..|bs| - 1]);
    }
  }

  /** The grid that `createBlocks` builds has no destroyed block. */
  lemma FreshGridUnhit()
    ensures HitCount(FreshGrid()) == 0
    ensures OnGrid(FreshGrid())
  {
    HitCountNone(FreshGrid());
  }

  /**
   * The gaps between columns (0.201 > 0.2) and rows (0.101 > 0.1) keep the
   * open boxes of distinct cells apart: a point strictly inside the boxes
   * placed at two cells means the cells are the same.
   */
  lemma SameCell(ri: nat, ci: nat, rj: nat, cj: nat, px: real, py: real)
    ensures Contains(ExpectedBlock(ri, ci), px, py) && Contains(ExpectedBlock(rj, cj), px, py) ==>
              ri == rj && ci == cj
  {
    var bi, bj := ExpectedBlock(ri, ci), ExpectedBlock(rj, cj);
    assert bi.x - bj.x == 0.201 * ((ci - cj) as real);
    assert bi.y - bj.y == 0.101 * ((rj - ri) as real);
  }

  /** No point is strictly inside two distinct blocks of the fresh grid. */
  lemma SlotsDisjoint(i: nat, j: nat, px: real, py: real)
    requires i < Rows * Cols && j < Rows * Cols && i != j
    requires Contains(FreshGrid()[i], px, py)
    ensures !Contains(FreshGrid()[j], px, py)
  {
    var ri, ci := i / Cols, i % Cols;
    var rj, cj := j / Cols, j % Cols;
    assert i == ri * Cols + ci && j == rj * Cols + cj;
    SameCell(ri, ci, rj, cj, px, py);
  }
}
