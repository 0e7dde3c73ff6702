/**
 * `place_racks`: the corridor (rack) cells of the warehouse layout.
 * Columns 2 .. xsize-3 are scanned in order and, inside each, rows
 * 1 .. ysize-3; one counter runs across the whole scan, so of every three
 * consecutive scanned cells the first two are racks and the third is not.
 * Cells are stored as (row, column).
 */
module Racks {
  import opened Grid

  /** A cell visited by the scan, as (row, column). */
  predicate InScan(r: int, c: int, xsize: int, ysize: int)
  {
    1 <= r <= ysize - 3 && 2 <= c <= xsize - 3
  }

  /** Number of rows scanned per column. */
  function Rows(ysize: int): int { ysize - 3 }

  /** Position of (r, c) in the column-major scan, counting from 0. */
  function ScanIndex(r: int, c: int, ysize: int): int
  {
    (c - 2) * Rows(ysize) + (r - 1)
  }

  /** Total number of scanned cells. */
  function ScanLength(xsize: int, ysize: int): int
  {
    (xsize - 4) * Rows(ysize)
  }

  /** The rack cells among the first `n` scanned cells. */
  ghost function LayoutPrefix(n: int, xsize: int, ysize: int): set<Pos>
    requires 5 < xsize <= 130 && 4 < ysize <= 130
  {
    set r: int, c: int | 1 <= r <= ysize - 3 && 2 <= c <= xsize - 3
                         && ScanIndex(r, c, ysize) < n && ScanIndex(r, c, ysize) % 3 != 2 :: (r, c)
  }

  /** The layout `place_racks` computes: the k-th scanned cell is a rack iff k mod 3 != 2. */
  ghost function RackLayout(xsize: int, ysize: int): (cells: set<Pos>)
    requires 5 < xsize <= 130 && 4 < ysize <= 130
    ensures forall p :: p in cells ==> 1 <= p.0 <= ysize - 3 && 2 <= p.1 <= xsize - 3
    ensures forall p :: p in cells ==> ScanIndex(p.0, p.1, ysize) % 3 != 2
  {
    set r: int, c: int | 1 <= r <= ysize - 3 && 2 <= c <= xsize - 3
                         && ScanIndex(r, c, ysize) % 3 != 2 :: (r, c)
  }

  /** A positive multiple of h is at least h. */
  lemma MultipleAtLeast(k: int, h: int)
    requires 1 <= k && 0 <= h
    ensures k * h >= h
    decreases k
  {
    if k > 1 {
      MultipleAtLeast(k - 1, h);
      assert k * h == (k - 1) * h + h;
    }
  }

  /** The scan positions of a later column all exceed those of an earlier one. */
  lemma LaterColumnLater(r: int, c: int, r': int, c': int, ysize: int)
    requires 4 < ysize
    requires 1 <= r <= ysize - 3 && 1 <= r' <= ysize - 3 && c < c'
    ensures ScanIndex(r, c, ysize) < ScanIndex(r', c', ysize)
  {
    var h := Rows(ysize);
    MultipleAtLeast(c' - c, h);
    assert (c' - 2) * h == (c - 2) * h + (c' - c) * h;
  }

  /** Distinct scanned cells have distinct scan positions. */
  lemma ScanIndexInjective(r: int, c: int, r': int, c': int, xsize: int, ysize: int)
    requires 4 < ysize
    requires InScan(r, c, xsize, ysize) && InScan(r', c', xsize, ysize)
    requires ScanIndex(r, c, ysize) == ScanIndex(r', c', ysize)
    ensures r == r' && c == c'
  {
    if c < c' {
      LaterColumnLater(r, c, r', c', ysize);
    } else if c' < c {
      LaterColumnLater(r', c', r, c, ysize);
    }
  }

  /** Every scanned cell lies before the end of the scan. */
  lemma ScanIndexBelowLength(r: int, c: int, xsize: int, ysize: int)
    requires 4 < ysize
    requires InScan(r, c, xsize, ysize)
    ensures 0 <= ScanIndex(r, c, ysize) < ScanLength(xsize, ysize)
  {
    var h := Rows(ysize);
    LaterColumnLater(r, c, 1, xsize - 2, ysize);
    assert ScanIndex(1, xsize - 2, ysize) == ScanLength(xsize, ysize);
    if c > 2 {
      MultipleAtLeast(c - 2, h);
    }
  }

  /** The running counter and the number of racks kept after one more scanned cell. */
  lemma CounterStep(n: int)
    ensures (n + 1) % 3 == if n % 3 < 2 then n % 3 + 1 else 0
    ensures (n + 1) - (n + 1) / 3 == n - n / 3 + (if n % 3 != 2 then 1 else 0)
  {
  }

  /** Scanning cell n = (r, c) adds it to the prefix exactly when n mod 3 != 2. */
  lemma PrefixStep(r: int, c: int, xsize: int, ysize: int)
    requires 5 < xsize <= 130 && 4 < ysize <= 130
    requires InScan(r, c, xsize, ysize)
    ensures var n := ScanIndex(r, c, ysize);
      (r, c) !in LayoutPrefix(n, xsize, ysize) &&
      LayoutPrefix(n + 1, xsize, ysize) ==
        LayoutPrefix(n, xsize, ysize) + (if n % 3 != 2 then {(r, c)} else {})
  {
    var n := ScanIndex(r, c, ysize);
    var before, after := LayoutPrefix(n, xsize, ysize), LayoutPrefix(n + 1, xsize, ysize);
    var added: set<Pos> := if n % 3 != 2 then {(r, c)} else {};
    forall p: Pos | p in after
      ensures p in before + added
    {
      if ScanIndex(p.0, p.1, ysize) == n {
        ScanIndexInjective(p.0, p.1, r, c, xsize, ysize);
      }
    }
    forall p: Pos | p in before + added
      ensures p in after
    {
      if p in added {
        assert p == (r, c);
      }
    }
  }

  /** One step of the scan, at scan position n, keeps the counter, the prefix and its size in step with the scan position. */
  lemma ScanStep(r: int, c: int, xsize: int, ysize: int, racks: set<Pos>, count: int, n: int)
    requires 5 < xsize <= 130 && 4 < ysize <= 130
    requires InScan(r, c, xsize, ysize) && n == ScanIndex(r, c, ysize)
    requires racks == LayoutPrefix(n, xsize, ysize) && count == n % 3 && |racks| == n - n / 3
    ensures var racks' := if count < 2 then racks + {(r, c)} else racks;
      var count' := if count < 2 then count + 1 else 0;
      racks' == LayoutPrefix(n + 1, xsize, ysize) && count' == (n + 1) % 3 && |racks'| == (n + 1) - (n + 1) / 3
  {
    PrefixStep(r, c, xsize, ysize);
    CounterStep(n);
  }

  /** Before the scan starts no cell is a rack. */
  lemma PrefixEmpty(xsize: int, ysize: int)
    requires 5 < xsize <= 130 && 4 < ysize <= 130
    ensures LayoutPrefix(0, xsize, ysize) == {}
  {
    forall p: Pos | p in LayoutPrefix(0, xsize, ysize)
      ensures false
    {
      ScanIndexBelowLength(p.0, p.1, xsize, ysize);
    }
  }

  /** The prefix that covers the whole scan is the layout. */
  lemma PrefixComplete(xsize: int, ysize: int)
    requires 5 < xsize <= 130 && 4 < ysize <= 130
    ensures LayoutPrefix(ScanLength(xsize, ysize), xsize, ysize) == RackLayout(xsize, ysize)
  {
    forall p: Pos | p in RackLayout(xsize, ysize)
      ensures p in LayoutPrefix(ScanLength(xsize, ysize), xsize, ysize)
    {
      ScanIndexBelowLength(p.0, p.1, xsize, ysize);
    }
  }

  /** The first cell of the next column follows the last cell of this one. */
  lemma NextColumn(c: int, ysize: int)
    requires 4 < ysize
    ensures ScanIndex(ysize - 2, c, ysize) == ScanIndex(1, c + 1, ysize)
  {
  }

  /**
   * `place_racks`: the nested scan with one running counter. Returns
   * exactly the layout above, and of the N = (xsize-4)(ysize-3) scanned
   * cells it keeps N - N/3.
   */
  method PlaceRacks(xsize: int, ysize: int) returns (racks: set<Pos>)
    requires 5 < xsize <= 130 && 4 < ysize <= 130
    ensures racks == RackLayout(xsize, ysize)
    ensures |racks| == ScanLength(xsize, ysize) - ScanLength(xsize, ysize) / 3
  {
    racks := {};
    var count := 0;
    ghost var n := 0;
    PrefixEmpty(xsize, ysize);
    var c := 2;
    while c < xsize - 2
      invariant 2 <= c <= xsize - 2 && n == ScanIndex(1, c, ysize)
      invariant racks == LayoutPrefix(n, xsize, ysize)
      invariant count == n % 3 && |racks| == n - n / 3
    {
      var r := 1;
      while r < ysize - 2
        invariant 1 <= r <= ysize - 2 && n == ScanIndex(r, c, ysize)
        invariant racks == LayoutPrefix(n, xsize, ysize)
        invariant count == n % 3 && |racks| == n - n / 3
      {
        ScanStep(r, c, xsize, ysize, racks, count, n);
        if count < 2 {
          count := count + 1;
          racks := racks + {(r, c)};
        } else {
          count := 0;
        }
        n := n + 1;
        r := r + 1;
      }
      NextColumn(c, ysize);
      c := c + 1;
    }
    assert n == ScanLength(xsize, ysize);
    PrefixComplete(xsize, ysize);
  }
}
