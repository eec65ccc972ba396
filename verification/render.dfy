/** The pixel coverage of `render_circle`: for a radius r, two nested counting
    loops run w and h over [0, 2r), form the offsets dx = r - w and dy = r - h,
    and draw the point at (dx, dy) from the centre when dx*dx + dy*dy <= r*r.
    The model is the sequence of offsets drawn, in drawing order. */
module Render {

  type Offset = (int, int)

  const Int32Max: int := 0x7fff_ffff

  /** The coverage test of the inner loop. */
  predicate Covers(r: int, dx: int, dy: int)
  {
    dx * dx + dy * dy <= r * r
  }

  /** The coverage test of radius r as a predicate on offsets. */
  function DiscTest(r: int): (int, int) -> bool
  {
    (dx: int, dy: int) => Covers(r, dx, dy)
  }

  /** The offsets drawn by the inner loop for the outer index w, once the inner
      index has run over [0, h), `inside` being the coverage test. */
  function Column(inside: (int, int) -> bool, r: int, w: int, h: int): (col: seq<Offset>)
    ensures |col| <= if h > 0 then h else 0
    ensures forall p :: p in col ==> p.0 == r - w
    decreases h
  {
    if h <= 0 then []
    else Column(inside, r, w, h - 1) + (if inside(r - w, r - (h - 1)) then [(r - w, r - (h - 1))] else [])
  }

  /** The offsets drawn once the outer index has run over [0, w). */
  function Columns(inside: (int, int) -> bool, r: int, w: int): (cols: seq<Offset>)
    ensures forall p :: p in cols ==> r - w < p.0 <= r
    decreases w
  {
    if w <= 0 then [] else Columns(inside, r, w - 1) + Column(inside, r, w - 1, 2 * r)
  }

  /** Everything `render_circle` draws for radius r. */
  function Offsets(r: int): (offsets: seq<Offset>)
    ensures r <= 0 ==> offsets == []
    ensures forall p :: p in offsets ==> -r < p.0 <= r
  {
    Columns(DiscTest(r), r, 2 * r)
  }

  /** `p` is drawn before `q`: the outer loop counts dx down, the inner loop dy. */
  predicate Precedes(p: Offset, q: Offset)
  {
    p.0 > q.0 || (p.0 == q.0 && p.1 > q.1)
  }

  predicate Descending(s: seq<Offset>)
  {
    forall i, j :: 0 <= i < j < |s| ==> Precedes(s[i], s[j])
  }

  /** The nested loops of `render_circle`, collecting the offsets they draw. */
  method CircleOffsets(radius: int) returns (offsets: seq<Offset>)
    ensures offsets == Offsets(radius)
  {
    offsets := [];
    var w := 0;
    while w < radius * 2
      invariant 0 <= w <= if radius > 0 then radius * 2 else 0
      invariant offsets == Columns(DiscTest(radius), radius, w)
    {
      var h := 0;
      while h < radius * 2
        invariant 0 <= h <= radius * 2
        invariant offsets == Columns(DiscTest(radius), radius, w) + Column(DiscTest(radius), radius, w, h)
      {
        var dx := radius - w;
        var dy := radius - h;
        if dx * dx + dy * dy <= radius * radius {
          offsets := offsets + [(dx, dy)];
        }
        h := h + 1;
      }
      w := w + 1;
    }
  }

  lemma {:induction false} ColumnMembers(inside: (int, int) -> bool, r: int, w: int, h: int, dx: int, dy: int)
    ensures (dx, dy) in Column(inside, r, w, h) <==> dx == r - w && r - h < dy <= r && inside(dx, dy)
    decreases h
  {
    if h > 0 {
      var prefix := Column(inside, r, w, h - 1);
      var cell := if inside(r - w, r - (h - 1)) then [(r - w, r - (h - 1))] else [];
      assert Column(inside, r, w, h) == prefix + cell;
      ColumnMembers(inside, r, w, h - 1, dx, dy);
      assert (dx, dy) in prefix + cell <==> (dx, dy) in prefix || (dx, dy) in cell;
    }
  }

  lemma {:induction false} ColumnsMembers(inside: (int, int) -> bool, r: int, w: int, dx: int, dy: int)
    ensures (dx, dy) in Columns(inside, r, w) <==> r - w < dx <= r && -r < dy <= r && inside(dx, dy)
    decreases w
  {
    if w > 0 {
      var prefix, last := Columns(inside, r, w - 1), Column(inside, r, w - 1, 2 * r);
      assert Columns(inside, r, w) == prefix + last;
      ColumnsMembers(inside, r, w - 1, dx, dy);
      ColumnMembers(inside, r, w - 1, 2 * r, dx, dy);
      if r - w < dx <= r && -r < dy <= r && inside(dx, dy) {
        if dx == r - (w - 1) {
          assert (dx, dy) in last;
        } else {
          assert (dx, dy) in prefix;
        }
      }
    }
  }

  /** The disc drawn for radius r is exactly the lattice points of the half-open
      square (-r, r] x (-r, r] that lie within distance r of the centre. */
  lemma OffsetsExactly(r: int, dx: int, dy: int)
    ensures (dx, dy) in Offsets(r) <==> -r < dx <= r && -r < dy <= r && Covers(r, dx, dy)
  {
    ColumnsMembers(DiscTest(r), r, 2 * r, dx, dy);
  }

  /** Every drawn offset lies inside the disc. */
  lemma OffsetsInsideDisc(r: int)
    ensures forall p :: p in Offsets(r) ==> Covers(r, p.0, p.1)
  {
    forall p | p in Offsets(r)
      ensures Covers(r, p.0, p.1)
    {
      OffsetsExactly(r, p.0, p.1);
    }
  }

  /** The loops start at offset r and stop before offset -r, so the disc is
      lopsided: its right and bottom extreme points are drawn, its left and
      top ones never are. */
  lemma Asymmetry(r: int)
    requires r > 0
    ensures (r, 0) in Offsets(r) && (0, r) in Offsets(r)
    ensures (-r, 0) !in Offsets(r) && (0, -r) !in Offsets(r)
  {
    OffsetsExactly(r, r, 0);
    OffsetsExactly(r, 0, r);
    OffsetsExactly(r, -r, 0);
    OffsetsExactly(r, 0, -r);
  }

  lemma {:induction false} ColumnDescending(inside: (int, int) -> bool, r: int, w: int, h: int)
    ensures Descending(Column(inside, r, w, h))
    decreases h
  {
    if h > 0 {
      ColumnDescending(inside, r, w, h - 1);
      var prefix := Column(inside, r, w, h - 1);
      forall i | 0 <= i < |prefix|
        ensures Precedes(prefix[i], (r - w, r - (h - 1)))
      {
        ColumnMembers(inside, r, w, h - 1, prefix[i].0, prefix[i].1);
      }
    }
  }

  /** Two descending runs, the first wholly before the second, make one. */
  lemma AppendDescending(front: seq<Offset>, back: seq<Offset>)
    requires Descending(front) && Descending(back)
    requires forall i, j :: 0 <= i < |front| && 0 <= j < |back| ==> Precedes(front[i], back[j])
    ensures Descending(front + back)
  {
    var all := front + back;
    forall i, j | 0 <= i < j < |all|
      ensures Precedes(all[i], all[j])
    {
      if j < |front| {
        assert all[i] == front[i] && all[j] == front[j];
      } else if i < |front| {
        assert all[i] == front[i] && all[j] == back[j - |front|];
      } else {
        assert all[i] == back[i - |front|] && all[j] == back[j - |front|];
      }
    }
  }

  lemma {:induction false} ColumnsDescending(inside: (int, int) -> bool, r: int, w: int)
    ensures Descending(Columns(inside, r, w))
    decreases w
  {
    if w > 0 {
      ColumnsDescending(inside, r, w - 1);
      ColumnDescending(inside, r, w - 1, 2 * r);
      var prefix, last := Columns(inside, r, w - 1), Column(inside, r, w - 1, 2 * r);
      forall i, j | 0 <= i < |prefix| && 0 <= j < |last|
        ensures Precedes(prefix[i], last[j])
      {
        assert prefix[i] in prefix && last[j] in last;
      }
      AppendDescending(prefix, last);
    }
  }

  /** Drawing order: dx descending, then dy descending; in particular no
      offset is drawn twice. */
  lemma OffsetsOrder(r: int)
    ensures Descending(Offsets(r))
    ensures forall i, j :: 0 <= i < j < |Offsets(r)| ==> Offsets(r)[i] != Offsets(r)[j]
  {
    ColumnsDescending(DiscTest(r), r, 2 * r);
  }

  lemma SquareBound(a: int, r: int)
    requires -r <= a <= r
    ensures a * a <= r * r
  {
    if a >= 0 {
      assert a * a <= a * r <= r * r;
    } else {
      assert a * a == (-a) * (-a) <= (-a) * r <= r * r;
    }
  }

  /** For every radius up to 32767 none of the 32-bit int expressions of the
      loops overflows; the two radii the program uses, 360 and 7, are in range. */
  lemma NoOverflow(r: int, w: int, h: int)
    requires 0 <= r <= 32767 && 0 <= w < 2 * r && 0 <= h < 2 * r
    ensures r * 2 <= Int32Max && r * r <= Int32Max
    ensures 0 <= (r - w) * (r - w) + (r - h) * (r - h) <= Int32Max
  {
    SquareBound(r - w, r);
    SquareBound(r - h, r);
    SquareBound(r, 32767);
  }
}
