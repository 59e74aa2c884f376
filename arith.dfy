/** Index arithmetic for row-major flat buffers: the facts about `*`, `/` and `%`
    that the pixel-layout proofs rely on. */
module Arith {

  /** Multiplication by a natural number is monotonic. */
  lemma MulMono(a: nat, b: nat, m: nat)
    ensures a <= b ==> a * m <= b * m
  {
  }

  /** A row-major index (i, j) in an n x m grid lies below n * m. */
  lemma IndexBound(i: nat, j: nat, n: nat, m: nat)
    requires i < n && j < m
    ensures i * m + j < n * m
  {
    MulMono(i + 1, n, m);
  }

  /** Division and remainder by the row length recover the row-major coordinates. */
  lemma IndexDecode(i: nat, j: nat, m: nat)
    requires j < m
    ensures (i * m + j) / m == i && (i * m + j) % m == j
  {
    var k := i * m + j;
    var q, r := k / m, k % m;
    assert k == q * m + r;
    MulMono(i + 1, q, m);
    MulMono(q + 1, i, m);
  }

  /** Every index below n * m has a row below n and a column below m. */
  lemma IndexSplit(k: nat, n: nat, m: nat)
    requires k < n * m
    ensures m > 0 && k / m < n && k % m < m && k == (k / m) * m + k % m
  {
    assert m != 0;
    MulMono(n, k / m, m);
  }

  /** A quarter of a product whose second factor divides by 4. */
  lemma QuarterProduct(h: nat, c: nat)
    requires c % 4 == 0
    ensures h * c / 4 == h * (c / 4)
  {
    var q := c / 4;
    assert c == 4 * q;
    assert h * c == 4 * (h * q);
  }

  /** Four bands of h*c/4 rows hold the c*h stacked rows when 4 divides h*c. */
  lemma FourBands(h: nat, c: nat)
    requires (h * c) % 4 == 0
    ensures 4 * (h * c / 4) == c * h
  {
  }

  /** Cell (y, x) of four side-by-side bands of r rows and w columns shows
      stacked row k = (x / w) * r + y of a stack of c blocks of h rows, which
      is row k % h of block k / h, at column x % w. */
  lemma BandSource(x: nat, y: nat, w: nat, r: nat, h: nat, c: nat)
    requires x < 4 * w && y < r && 4 * r == c * h
    ensures x % w < w
    ensures ((x / w) * r + y) / h < c && ((x / w) * r + y) % h < h
    ensures (((x / w) * r + y) / h) * h + ((x / w) * r + y) % h == (x / w) * r + y
  {
    IndexSplit(x, 4, w);
    IndexBound(x / w, y, 4, r);
    IndexSplit((x / w) * r + y, c, h);
  }

  /** Row j of block i, in a stack of c blocks of h rows cut into four bands
      of r rows, lies in band (i*h + j) / r at row (i*h + j) % r; column l of
      that band is column band * w + l of the side-by-side layout. */
  lemma BandPixel(i: nat, j: nat, l: nat, c: nat, h: nat, w: nat, r: nat)
    requires i < c && j < h && l < w && 4 * r == c * h
    ensures (i * h + j) % r < r
    ensures ((i * h + j) / r) * w + l < 4 * w
    ensures (((i * h + j) / r) * w + l) / w == (i * h + j) / r
    ensures (((i * h + j) / r) * w + l) % w == l
    ensures ((i * h + j) / r) * r + (i * h + j) % r == i * h + j
  {
    IndexBound(i, j, c, h);
    IndexSplit(i * h + j, 4, r);
    IndexBound((i * h + j) / r, l, 4, w);
    IndexDecode((i * h + j) / r, l, w);
  }

  /** Four bands of h*c/4 rows, each w wide, hold h*w*c cells when 4 divides h*c. */
  lemma BandArea(h: nat, w: nat, c: nat)
    requires (h * c) % 4 == 0
    ensures (h * c / 4) * (4 * w) == h * w * c
  {
    var q := h * c / 4;
    assert h * c == 4 * q;
    assert q * (4 * w) == (4 * q) * w;
    assert (h * c) * w == h * w * c;
  }

  /** Row y of block b, in a stack of blocks of q cells of h rows each, is row
      y % h of cell b * q + y / h. */
  lemma StackedRow(b: nat, q: nat, h: nat, y: nat)
    requires h > 0
    ensures (b * (h * q) + y) / h == b * q + y / h
    ensures (b * (h * q) + y) % h == y % h
  {
    var i, j := y / h, y % h;
    assert y == i * h + j;
    assert b * (h * q) == (b * q) * h;
    assert b * (h * q) + y == (b * q + i) * h + j;
    IndexDecode(b * q + i, j, h);
  }
}
