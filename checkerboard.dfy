/** The test texture of the particle viewer: a (2 * tiles * size) x (2 * tiles * size) x 3
    image of 0/1 entries, built from Python list repetition, two Kronecker products and a
    reshape, and proved equal to the plain rule "1 on the even squares of a size x size grid". */
module Checkerboard {

  /** A 2-D array as a sequence of rows. numpy builds these entries as floats; only the
      values 0 and 1 occur, so integers stand in for them. */
  type Matrix = seq<seq<int>>

  /** The length of the first row, 0 for no rows. */
  function Width(a: Matrix): nat {
    if |a| == 0 then 0 else |a[0]|
  }

  /** All rows have the same length. */
  predicate Rect(a: Matrix) {
    forall i :: 0 <= i < |a| ==> |a[i]| == Width(a)
  }

  // ---------------------------------------------------------------------------------------
  // Arithmetic facts about / and % that the verifier does not find by itself

  /** Quotient and remainder are determined by any decomposition f == q * c + r, 0 <= r < c. */
  lemma DivModUnique(f: int, c: int, q: int, r: int)
    requires c > 0 && 0 <= r < c && f == q * c + r
    ensures f / c == q && f % c == r
  {
    var q', r' := f / c, f % c;
    assert (q - q') * c == r' - r;
    if q > q' {
      MulAtLeast(q - q', c);
    } else if q < q' {
      MulAtLeast(q' - q, c);
    }
  }

  lemma MulAtLeast(k: int, c: int)
    requires k >= 1 && c > 0
    ensures k * c >= c
  {
    assert k * c == (k - 1) * c + c;
    assert (k - 1) * c >= 0;
  }

  /** An index below m * p splits into an index below m and one below p. */
  lemma DivBound(i: int, p: int, m: int)
    requires 0 <= i < m * p && 0 <= m && 0 <= p
    ensures p > 0 && 0 <= i / p < m && 0 <= i % p < p
  {
  }

  lemma MulMonotone(a: int, b: int, p: int)
    requires 0 <= a <= b && p >= 0
    ensures a * p <= b * p
  {
    assert b * p - a * p == (b - a) * p;
    assert (b - a) * p >= 0;
  }

  /** A row-major index into a D-column array of B-row blocks stays below A * B * D. */
  lemma IndexBound(x: int, y: int, z: int, a: int, b: int, d: int)
    requires 0 <= x < a && 0 <= y < b && 0 <= z < d
    ensures 0 <= (x * b + y) * d + z < a * b * d
  {
    MulMonotone(x + 1, a, b);
    assert x * b + y < (x + 1) * b;
    assert x * b + y + 1 <= a * b;
    MulMonotone(x * b + y + 1, a * b, d);
    assert (x * b + y + 1) * d == (x * b + y) * d + d;
  }

  // ---------------------------------------------------------------------------------------
  // The numpy building blocks

  /** Python's list * n: n copies of s one after the other. */
  function Repeat<T>(s: seq<T>, n: nat): (r: seq<T>)
    ensures |r| == |s| * n
  {
    if n == 0 then [] else s + Repeat(s, n - 1)
  }

  /** Entry i of s * n is entry i % |s| of s. */
  lemma {:induction false} RepeatAt<T>(s: seq<T>, n: nat, i: int)
    requires 0 <= i < |s| * n
    ensures |s| > 0 && Repeat(s, n)[i] == s[i % |s|]
    decreases n
  {
    DivBound(i, |s|, n);
    if i < |s| {
      DivModUnique(i, |s|, 0, i);
    } else {
      assert Repeat(s, n)[i] == Repeat(s, n - 1)[i - |s|];
      RepeatAt(s, n - 1, i - |s|);
      DivModUnique(i - |s|, |s|, (i - |s|) / |s|, (i - |s|) % |s|);
      DivModUnique(i, |s|, (i - |s|) / |s| + 1, (i - |s|) % |s|);
    }
  }

  /** np.ones((p, q)). */
  function Ones(p: nat, q: nat): (r: Matrix)
    ensures |r| == p && Rect(r) && Width(r) == (if p == 0 then 0 else q)
    ensures forall i, j :: 0 <= i < p && 0 <= j < q ==> r[i][j] == 1
  {
    seq(p, _ => seq(q, _ => 1))
  }

  /** Block (i / |b|, j / Width(b)) of the Kronecker product is a[i / |b|][j / Width(b)] * b. */
  function KronEntry(a: Matrix, b: Matrix, i: int, j: int): int
    requires Rect(a) && Rect(b)
    requires 0 <= i < |a| * |b| && 0 <= j < Width(a) * Width(b)
  {
    DivBound(i, |b|, |a|);
    DivBound(j, Width(b), Width(a));
    a[i / |b|][j / Width(b)] * b[i % |b|][j % Width(b)]
  }

  /** np.kron on two 2-D arrays. */
  function Kron(a: Matrix, b: Matrix): (r: Matrix)
    requires Rect(a) && Rect(b)
    ensures |r| == |a| * |b| && Rect(r)
    ensures Width(r) == (if |r| == 0 then 0 else Width(a) * Width(b))
  {
    seq(|a| * |b|, i requires 0 <= i < |a| * |b| =>
      seq(Width(a) * Width(b), j requires 0 <= j < Width(a) * Width(b) => KronEntry(a, b, i, j)))
  }

  /** Entry f of the array read row by row. */
  function Flat(m: Matrix, f: int): int
    requires Rect(m) && 0 <= f < |m| * Width(m)
  {
    DivBound(f, Width(m), |m|);
    m[f / Width(m)][f % Width(m)]
  }

  /** np.reshape to an a x b x d array: the entries in row-major order, regrouped. */
  function Reshape3(m: Matrix, a: nat, b: nat, d: nat): (r: seq<seq<seq<int>>>)
    requires Rect(m) && |m| * Width(m) == a * b * d
    ensures |r| == a && forall x :: 0 <= x < a ==> |r[x]| == b && forall y :: 0 <= y < b ==> |r[x][y]| == d
  {
    seq(a, x requires 0 <= x < a =>
      seq(b, y requires 0 <= y < b =>
        seq(d, z requires 0 <= z < d => IndexBound(x, y, z, a, b, d); Flat(m, (x * b + y) * d + z))))
  }

  // ---------------------------------------------------------------------------------------
  // The checkerboard

  /** [[1, 0] * tiles, [0, 1] * tiles] * tiles: a 2 tiles x 2 tiles board of single cells. */
  function Tiles(tiles: nat): (r: Matrix)
    ensures |r| == 2 * tiles && Rect(r) && Width(r) == 2 * tiles
  {
    var rows := [Repeat([1, 0], tiles), Repeat([0, 1], tiles)];
    var r := Repeat(rows, tiles);
    assert forall i :: 0 <= i < |r| ==> |r[i]| == 2 * tiles by {
      forall i | 0 <= i < |r| ensures |r[i]| == 2 * tiles {
        RepeatAt(rows, tiles, i);
      }
    }
    r
  }

  /** The cells of the small board alternate, starting with 1 in the corner. */
  lemma TilesAt(tiles: nat, a: int, b: int)
    requires 0 <= a < 2 * tiles && 0 <= b < 2 * tiles
    ensures Tiles(tiles)[a][b] == if (a + b) % 2 == 0 then 1 else 0
  {
    var rows := [Repeat([1, 0], tiles), Repeat([0, 1], tiles)];
    RepeatAt(rows, tiles, a);
    RepeatAt([1, 0], tiles, b);
    RepeatAt([0, 1], tiles, b);
  }

  /** The side of the image. */
  function Side(size: nat, tiles: nat): nat {
    2 * tiles * size
  }

  /** The first Kronecker product: every cell blown up to a size x size block. */
  function Blocks(size: nat, tiles: nat): (r: Matrix)
    ensures |r| == Side(size, tiles) && Rect(r) && Width(r) == Side(size, tiles)
  {
    Kron(Tiles(tiles), Ones(size, size))
  }

  /** The second Kronecker product, with [1, 1, 1] (numpy treats it as the 1 x 3 array
      [[1, 1, 1]]): every entry repeated three times along the row. */
  function Channels(size: nat, tiles: nat): (r: Matrix)
    ensures |r| == Side(size, tiles) && Rect(r) && Width(r) == Side(size, tiles) * 3
  {
    Kron(Blocks(size, tiles), [[1, 1, 1]])
  }

  /** _checkerboard(size, tiles). */
  function MakeCheckerboard(size: nat := 64, tiles: nat := 4): seq<seq<seq<int>>> {
    var n := Side(size, tiles);
    var c := Channels(size, tiles);
    ProductSize(|c|, Width(c), n);
    Reshape3(c, n, n, 3)
  }

  lemma ProductSize(p: int, q: int, n: int)
    requires p == n && q == n * 3
    ensures p * q == n * n * 3
  {
  }

  /** The reference rule: 1 exactly on the squares whose block coordinates have an even sum. */
  function Pixel(size: nat, i: nat, j: nat): int
    requires size > 0
  {
    if (i / size + j / size) % 2 == 0 then 1 else 0
  }

  /** The image has shape (2 tiles size, 2 tiles size, 3). */
  lemma CheckerboardShape(size: nat, tiles: nat)
    ensures var r := MakeCheckerboard(size, tiles);
      var n := 2 * tiles * size;
      |r| == n && (forall i :: 0 <= i < n ==> |r[i]| == n) &&
      (forall i, j :: 0 <= i < n && 0 <= j < n ==> |r[i][j]| == 3)
  {
  }

  /** An entry of the first product is the cell of the block it lies in. */
  lemma BlocksAt(size: nat, tiles: nat, i: int, j: int)
    requires 0 <= i < Side(size, tiles) && 0 <= j < Side(size, tiles)
    ensures size > 0 && Blocks(size, tiles)[i][j] == Pixel(size, i, j)
  {
    DivBound(i, size, 2 * tiles);
    DivBound(j, size, 2 * tiles);
    TilesAt(tiles, i / size, j / size);
    assert Ones(size, size)[i % size][j % size] == 1;
  }

  /** An entry of the second product is the entry of the first it copies. */
  lemma ChannelsAt(size: nat, tiles: nat, i: int, j: int, k: int)
    requires 0 <= i < Side(size, tiles) && 0 <= j < Side(size, tiles) && 0 <= k < 3
    ensures Channels(size, tiles)[i][3 * j + k] == Blocks(size, tiles)[i][j]
  {
    var b := Blocks(size, tiles);
    DivModUnique(i, 1, i, 0);
    DivModUnique(3 * j + k, 3, j, k);
    IndexBound(0, j, k, 1, Side(size, tiles), 3);
    assert Channels(size, tiles)[i][3 * j + k] == KronEntry(b, [[1, 1, 1]], i, 3 * j + k);
  }

  /** Reshaping an a-row array whose rows hold b groups of d entries keeps every entry where it
      was: entry (x, y, z) is entry y * d + z of row x. */
  lemma ReshapeAt(m: Matrix, a: nat, b: nat, d: nat, x: int, y: int, z: int)
    requires Rect(m) && |m| == a && Width(m) == b * d && |m| * Width(m) == a * b * d
    requires 0 <= x < a && 0 <= y < b && 0 <= z < d
    ensures 0 <= y * d + z < Width(m) && x < |m|
    ensures Reshape3(m, a, b, d)[x][y][z] == m[x][y * d + z]
  {
    IndexBound(x, y, z, a, b, d);
    IndexBound(0, y, z, 1, b, d);
    var f, w := (x * b + y) * d + z, Width(m);
    assert f == x * w + (y * d + z);
    DivModUnique(f, w, x, y * d + z);
    assert Reshape3(m, a, b, d)[x][y][z] == Flat(m, f);
  }

  /** The colour rule: entry (i, j, k) is 1 exactly when i / size + j / size is even, and 0
      otherwise; so the image is built from 0 and 1 only. */
  lemma CheckerboardPixel(size: nat, tiles: nat, i: int, j: int, k: int)
    requires 0 <= i < 2 * tiles * size && 0 <= j < 2 * tiles * size && 0 <= k < 3
    ensures size > 0
    ensures CheckerboardShapeAt(size, tiles, i, j) &&
      MakeCheckerboard(size, tiles)[i][j][k] == Pixel(size, i, j)
    ensures MakeCheckerboard(size, tiles)[i][j][k] == 0 || MakeCheckerboard(size, tiles)[i][j][k] == 1
  {
    var n := Side(size, tiles);
    var c := Channels(size, tiles);
    CheckerboardShape(size, tiles);
    ProductSize(|c|, Width(c), n);
    ReshapeAt(c, n, n, 3, i, j, k);
    assert 3 * j + k == j * 3 + k;
    ChannelsAt(size, tiles, i, j, k);
    BlocksAt(size, tiles, i, j);
  }

  /** The indices (i, j) address a pixel of the image. */
  predicate CheckerboardShapeAt(size: nat, tiles: nat, i: int, j: int) {
    var r := MakeCheckerboard(size, tiles);
    0 <= i < |r| && 0 <= j < |r[i]| && |r[i][j]| == 3
  }

  /** The corner block is 1 and the three channels of a pixel agree. */
  lemma CheckerboardCorner(size: nat, tiles: nat, i: int, j: int)
    requires 0 <= i < 2 * tiles * size && 0 <= j < 2 * tiles * size
    ensures size > 0
    ensures var r := MakeCheckerboard(size, tiles);
      0 <= i < |r| && 0 <= j < |r[i]| && |r[i][j]| == 3 &&
      (i < size && j < size ==> r[i][j][0] == 1) &&
      r[i][j][0] == r[i][j][1] == r[i][j][2]
  {
    CheckerboardPixel(size, tiles, i, j, 0);
    CheckerboardPixel(size, tiles, i, j, 1);
    CheckerboardPixel(size, tiles, i, j, 2);
    PixelBlocks(size, i, j, i, j);
  }

  /** Each aligned size x size block is constant, and blocks next to each other (down a column
      or across a row) differ. */
  lemma CheckerboardNeighbours(size: nat, tiles: nat, i: int, j: int, i': int, j': int)
    requires 0 <= i < 2 * tiles * size && 0 <= j < 2 * tiles * size
    requires 0 <= i' < 2 * tiles * size && 0 <= j' < 2 * tiles * size
    ensures size > 0
    ensures var r := MakeCheckerboard(size, tiles);
      CheckerboardShapeAt(size, tiles, i, j) && CheckerboardShapeAt(size, tiles, i', j') &&
      (i / size == i' / size && j / size == j' / size ==> r[i][j] == r[i'][j']) &&
      (i / size + 1 == i' / size && j / size == j' / size ==> r[i][j][0] != r[i'][j'][0]) &&
      (i / size == i' / size && j / size + 1 == j' / size ==> r[i][j][0] != r[i'][j'][0])
  {
    var r := MakeCheckerboard(size, tiles);
    CheckerboardCorner(size, tiles, i, j);
    CheckerboardCorner(size, tiles, i', j');
    CheckerboardPixel(size, tiles, i, j, 0);
    CheckerboardPixel(size, tiles, i', j', 0);
    PixelBlocks(size, i, j, i', j');
    if i / size == i' / size && j / size == j' / size {
      assert r[i][j] == r[i'][j'];
    }
  }

  /** The reference rule on its own: 1 in the corner block, constant on blocks, alternating
      between neighbouring blocks. */
  lemma PixelBlocks(size: nat, i: nat, j: nat, i': nat, j': nat)
    requires size > 0
    ensures i < size && j < size ==> Pixel(size, i, j) == 1
    ensures i / size == i' / size && j / size == j' / size ==> Pixel(size, i, j) == Pixel(size, i', j')
    ensures i / size + 1 == i' / size && j / size == j' / size ==> Pixel(size, i, j) != Pixel(size, i', j')
    ensures i / size == i' / size && j / size + 1 == j' / size ==> Pixel(size, i, j) != Pixel(size, i', j')
  {
    if i < size && j < size {
      DivModUnique(i, size, 0, i);
      DivModUnique(j, size, 0, j);
    }
  }
}
