// The OSD entry points of the CE3226 MPS service
// (src/ce3226/mps_service/src/mps_service.cpp): fitting the caller's boxes
// into the frame, grouping rectangles by colour, and handing them to the
// 2D engine in batches of at most 32.
module MpsOsd {
  import opened Common

  /** The frame pixel formats the OSD functions tell apart. */
  datatype PixelFormat = Yuv420SemiUV | Yuv420SemiVU | OtherPixelFormat

  /** The cng2d surface colour formats. */
  datatype G2dFormat = G2dNv12 | G2dNv21

  /** kMaxOsdNum: the most rectangles or overlays in one hardware job. */
  const MAX_OSD_NUM: nat := 32

  /** OsdDrawBboxes' surface format: NV12 for the UV order, NV21 for the VU
      order, nothing for any other frame. */
  function SurfaceFormat(fmt: PixelFormat): (r: Option<G2dFormat>)
    ensures r == Some(G2dNv12) <==> fmt == Yuv420SemiUV
    ensures r == Some(G2dNv21) <==> fmt == Yuv420SemiVU
    ensures r.None? <==> fmt == OtherPixelFormat
  {
    match fmt
    case Yuv420SemiUV => Some(G2dNv12)
    case Yuv420SemiVU => Some(G2dNv21)
    case OtherPixelFormat => None
  }

  /** A caller's box (signed fields). */
  datatype Bbox = Bbox(x: int, y: int, w: int, h: int)

  /** A rectangle handed to the hardware. */
  datatype Rect = Rect(x: nat, y: nat, w: nat, h: nat)

  // ---------------------------------------------------------------------
  // Fitting one axis of a box into the frame.

  /** 32-bit unsigned addition of two 32-bit values. */
  function AddU32(a: nat, b: nat): (r: nat)
    requires a < U32_MOD && b < U32_MOD
    ensures r < U32_MOD
  {
    if a + b >= U32_MOD then a + b - U32_MOD else a + b
  }

  /** 32-bit unsigned subtraction of `d` from `a`. */
  function SubU32(a: nat, d: nat): (r: nat)
    requires a < U32_MOD && d < U32_MOD
    ensures r < U32_MOD
  {
    if a >= d then a - d else a + U32_MOD - d
  }

  /** AddU32 and SubU32 are addition and subtraction modulo 2^32. */
  lemma WrapArithmetic(a: nat, b: nat)
    requires a < U32_MOD && b < U32_MOD
    ensures AddU32(a, b) == (a + b) % U32_MOD
    ensures SubU32(a, b) == (a - b) % U32_MOD
  {
  }

  /** Where the shrink loop `while (pos + len >= limit) len -= 2;` stops,
      with 32-bit unsigned arithmetic: the length is left alone when the
      wrapped end already lies inside, and otherwise lowered until the
      wrapped end is the last even coordinate inside the frame. */
  function ShrunkAsWritten(pos: nat, len: nat, limit: nat): (r: nat)
    requires pos < U32_MOD && len < U32_MOD && 0 < limit
    ensures r < U32_MOD
  {
    var s0 := AddU32(pos, len);
    if s0 < limit then len else SubU32(len, s0 - EvenDown(limit - 1))
  }

  /** The shrink loop as written. A frame dimension of 0 would make it spin
      for ever, so `limit` is positive. */
  method ShrinkToFit(pos: nat, len: nat, limit: nat) returns (r: nat)
    requires pos < U32_MOD && len < U32_MOD && pos % 2 == 0 && len % 2 == 0
    requires 0 < limit
    ensures r == ShrunkAsWritten(pos, len, limit)
  {
    var s0 := AddU32(pos, len);
    r := len;
    ghost var d: nat := 0;
    while AddU32(pos, r) >= limit
      invariant r < U32_MOD && d <= s0 && d % 2 == 0
      invariant r == SubU32(len, d)
      invariant AddU32(pos, r) == s0 - d
      invariant d > 0 ==> s0 >= limit && s0 - d >= EvenDown(limit - 1)
      decreases AddU32(pos, r)
    {
      r := SubU32(r, 2);
      d := d + 2;
    }
    if d > 0 {
      assert s0 - d == EvenDown(limit - 1);
    }
  }

  /** The length that fits: the largest even length not above `len` whose
      end stays inside the frame, and 0 when the box starts at or past the
      edge. */
  function FitLength(pos: nat, len: nat, limit: nat): (r: nat)
    requires len % 2 == 0
    ensures r % 2 == 0 && r <= len
    ensures r > 0 ==> pos + r < limit
    ensures pos % 2 == 0 && pos < limit ==> r == len || limit <= pos + r + 2
  {
    if pos >= limit then 0 else Min(len, EvenDown(limit - 1 - pos))
  }

  /** Inside the frame and without overflow, the loop as written computes
      the fitted length. */
  lemma ShrinkAgreesInsideFrame(pos: nat, len: nat, limit: nat)
    requires pos % 2 == 0 && len % 2 == 0 && pos < limit && pos + len < U32_MOD
    ensures ShrunkAsWritten(pos, len, limit) == FitLength(pos, len, limit)
  {
    if pos + len >= limit {
      assert EvenDown(limit - 1) - pos == EvenDown(limit - 1 - pos);
    }
  }

  /** A box whose left edge sits on the frame's right edge: the loop
      wraps the width below zero and leaves a width of 2^32 - 2, where the
      fitted length is 0 and the box is skipped. */
  method BoxAtEdgeWraps() returns (asWritten: nat, corrected: nat)
    ensures asWritten == U32_MOD - 2 && corrected == 0
  {
    asWritten := ShrinkToFit(100, 0, 100);
    corrected := FitLength(100, 0, 100);
  }

  /** The rectangle drawn or filled for a box: each field taken as 32-bit
      unsigned and rounded down to even, width and height fitted into the
      frame; nothing when either fitted extent is 0. */
  function RectifyBox(b: Bbox, width: nat, height: nat): (r: Option<Rect>)
    ensures r.Some? ==>
      r.value.x == EvenDown(U32(b.x)) && r.value.y == EvenDown(U32(b.y)) &&
      0 < r.value.w && r.value.x + r.value.w < width &&
      0 < r.value.h && r.value.y + r.value.h < height &&
      r.value.x % 2 == 0 && r.value.y % 2 == 0 && r.value.w % 2 == 0 && r.value.h % 2 == 0 &&
      r.value.w <= U32(b.w) && r.value.h <= U32(b.h)
    ensures r.None? <==>
      FitLength(EvenDown(U32(b.x)), EvenDown(U32(b.w)), width) == 0 ||
      FitLength(EvenDown(U32(b.y)), EvenDown(U32(b.h)), height) == 0
  {
    var x := EvenDown(U32(b.x));
    var y := EvenDown(U32(b.y));
    var w := FitLength(x, EvenDown(U32(b.w)), width);
    var h := FitLength(y, EvenDown(U32(b.h)), height);
    if w == 0 || h == 0 then None else Some(Rect(x, y, w, h))
  }

  /** Fitting is idempotent: a rectangle that came out of RectifyBox comes
      out again unchanged. */
  lemma RectifyIdempotent(b: Bbox, width: nat, height: nat)
    requires RectifyBox(b, width, height).Some?
    ensures var r := RectifyBox(b, width, height).value;
      RectifyBox(Bbox(r.x, r.y, r.w, r.h), width, height) == Some(r)
  {
    var r := RectifyBox(b, width, height).value;
    assert r.x < U32_MOD && r.y < U32_MOD && r.w < U32_MOD && r.h < U32_MOD;
  }

  // ---------------------------------------------------------------------
  // Grouping by colour: the ordered map from colour to rectangles.

  /** One entry of the colour map: a colour and its rectangles in the
      order they were added. */
  datatype Group = Group(color: nat, rects: seq<Rect>)

  /** Entries with strictly ascending colours, as std::map keeps them. */
  predicate Ordered(groups: seq<Group>)
  {
    forall i, j :: 0 <= i < j < |groups| ==> groups[i].color < groups[j].color
  }

  /** Every entry holds at least one rectangle. */
  predicate NonEmptyGroups(groups: seq<Group>)
  {
    forall i :: 0 <= i < |groups| ==> |groups[i].rects| > 0
  }

  /** The rectangles stored under colour `c` (none when it is absent). */
  function RectsFor(groups: seq<Group>, c: nat): seq<Rect>
  {
    if |groups| == 0 then []
    else if groups[0].color == c then groups[0].rects
    else RectsFor(groups[1..], c)
  }

  /** A colour below the first entry's is not in an ordered map. */
  lemma {:induction false} BelowFirstColor(groups: seq<Group>, c: nat)
    requires Ordered(groups)
    requires |groups| > 0 ==> c < groups[0].color
    ensures RectsFor(groups, c) == []
    decreases |groups|
  {
    if |groups| > 0 {
      BelowFirstColor(groups[1..], c);
    }
  }

  /** `rects_map[color].push_back(rect)`: append to the colour's entry, or
      insert a new entry at its place in colour order. */
  function AddRect(groups: seq<Group>, c: nat, rect: Rect): seq<Group>
  {
    if |groups| == 0 then [Group(c, [rect])]
    else if groups[0].color == c then [Group(c, groups[0].rects + [rect])] + groups[1..]
    else if c < groups[0].color then [Group(c, [rect])] + groups
    else [groups[0]] + AddRect(groups[1..], c, rect)
  }

  /** Adding keeps the colour order and non-empty entries, and puts the
      smaller of the new colour and the old first colour first. */
  lemma {:induction false} AddRectOrdered(groups: seq<Group>, c: nat, rect: Rect)
    requires Ordered(groups) && NonEmptyGroups(groups)
    ensures Ordered(AddRect(groups, c, rect)) && NonEmptyGroups(AddRect(groups, c, rect))
    ensures |AddRect(groups, c, rect)| > 0
    ensures AddRect(groups, c, rect)[0].color == if |groups| == 0 then c else Min(c, groups[0].color)
    decreases |groups|
  {
    var r := AddRect(groups, c, rect);
    if |groups| == 0 {
    } else if groups[0].color == c {
      assert r[1..] == groups[1..];
    } else if c < groups[0].color {
      assert r[1..] == groups;
    } else {
      var rest := groups[1..];
      AddRectOrdered(rest, c, rect);
      var r' := AddRect(rest, c, rect);
      assert r[1..] == r';
      forall i, j | 0 <= i < j < |r| ensures r[i].color < r[j].color {
        if i == 0 && j > 1 {
          assert r'[0].color <= r'[j - 1].color;
        }
      }
    }
  }

  /** Adding appends the rectangle to its own colour's entry and leaves
      every other colour's rectangles as they were. */
  lemma {:induction false} AddRectContents(groups: seq<Group>, c: nat, rect: Rect)
    requires Ordered(groups)
    ensures forall d ::
      (RectsFor(AddRect(groups, c, rect), d) == RectsFor(groups, d) + (if d == c then [rect] else []))
    decreases |groups|
  {
    var r := AddRect(groups, c, rect);
    if |groups| == 0 {
    } else if groups[0].color == c {
      assert r[1..] == groups[1..];
    } else if c < groups[0].color {
      assert r[1..] == groups;
      BelowFirstColor(groups, c);
    } else {
      var rest := groups[1..];
      assert Ordered(rest);
      AddRectContents(rest, c, rect);
      assert r[1..] == AddRect(rest, c, rect);
    }
  }

  /** The drawable rectangles of a box list, with their colours, in list
      order: boxes that fit to nothing are skipped. */
  function Drawables(bboxes: seq<(Bbox, nat, nat)>, width: nat, height: nat): seq<(nat, Rect)>
  {
    if |bboxes| == 0 then []
    else
      var last := bboxes[|bboxes| - 1];
      var prior := Drawables(bboxes[..|bboxes| - 1], width, height);
      match RectifyBox(last.0, width, height)
      case None => prior
      case Some(rect) => prior + [(last.2, rect)]
  }

  /** The rectangles of colour `c` among `items`, in order. */
  function RectsOf(items: seq<(nat, Rect)>, c: nat): seq<Rect>
  {
    if |items| == 0 then []
    else RectsOf(items[..|items| - 1], c) + (if items[|items| - 1].0 == c then [items[|items| - 1].1] else [])
  }

  /** The colour map after adding `items` one by one. */
  function Grouped(items: seq<(nat, Rect)>): seq<Group>
  {
    if |items| == 0 then []
    else AddRect(Grouped(items[..|items| - 1]), items[|items| - 1].0, items[|items| - 1].1)
  }

  /** The colour map holds, in ascending colour order, one non-empty entry
      per colour that occurs, and under each colour exactly that colour's
      rectangles in the order they came. */
  lemma {:induction false} GroupedMeaning(items: seq<(nat, Rect)>)
    ensures Ordered(Grouped(items)) && NonEmptyGroups(Grouped(items))
    ensures forall c :: RectsFor(Grouped(items), c) == RectsOf(items, c)
    decreases |items|
  {
    if |items| > 0 {
      var prior := items[..|items| - 1];
      var last := items[|items| - 1];
      GroupedMeaning(prior);
      AddRectOrdered(Grouped(prior), last.0, last.1);
      AddRectContents(Grouped(prior), last.0, last.1);
    }
  }

  // ---------------------------------------------------------------------
  // Batching.

  /** A list cut into consecutive pieces of MAX_OSD_NUM, the last one
      possibly shorter. */
  function Chunks<T>(xs: seq<T>): (r: seq<seq<T>>)
    ensures |r| == (|xs| + MAX_OSD_NUM - 1) / MAX_OSD_NUM
  {
    seq((|xs| + MAX_OSD_NUM - 1) / MAX_OSD_NUM,
        i requires 0 <= i < (|xs| + MAX_OSD_NUM - 1) / MAX_OSD_NUM =>
          xs[MAX_OSD_NUM * i .. Min(MAX_OSD_NUM * i + MAX_OSD_NUM, |xs|)])
  }

  /** Piece i starts at item 32 i and holds 32 items, or what is left. */
  lemma ChunkAt<T>(xs: seq<T>, i: nat)
    requires MAX_OSD_NUM * i < |xs|
    ensures i < |Chunks(xs)|
    ensures Chunks(xs)[i] == xs[MAX_OSD_NUM * i .. Min(MAX_OSD_NUM * i + MAX_OSD_NUM, |xs|)]
  {
  }

  /** Each piece holds between 1 and MAX_OSD_NUM items, and the pieces put
      back together give the list. */
  lemma {:induction false} ChunksSpec<T>(xs: seq<T>)
    ensures forall i :: 0 <= i < |Chunks(xs)| ==> 1 <= |Chunks(xs)[i]| <= MAX_OSD_NUM
    ensures Flatten(Chunks(xs)) == xs
    decreases |xs|
  {
    var n := |Chunks(xs)|;
    if n > 0 {
      var m := MAX_OSD_NUM * (n - 1);
      assert m < |xs| <= m + MAX_OSD_NUM;
      var front := xs[..m];
      assert |Chunks(front)| == n - 1;
      forall i | 0 <= i < n - 1 ensures Chunks(xs)[i] == Chunks(front)[i] {
        assert 32 * i + 32 <= m;
        ChunkAt(xs, i);
        ChunkAt(front, i);
        assert front[32 * i .. 32 * i + 32] == xs[32 * i .. 32 * i + 32];
      }
      ChunkAt(xs, n - 1);
      assert Min(m + MAX_OSD_NUM, |xs|) == |xs|;
      assert Chunks(xs)[n - 1] == xs[m..];
      assert Chunks(xs)[..n - 1] == Chunks(front);
      assert Chunks(xs) == Chunks(xs)[..n - 1] + [Chunks(xs)[n - 1]];
      ChunksSpec(front);
      FlattenSnoc(Chunks(front), xs[m..]);
      assert front + xs[m..] == xs;
    }
  }

  /** The outcome of the k-th submission to the hardware (the calls that
      put one batch on its way); outcomes past the list succeed. */
  function SubmitOkAt(oks: seq<bool>, k: nat): bool
  {
    k >= |oks| || oks[k]
  }

  /** The submission loop shared by the three OSD calls: items are
      collected in a buffer of MAX_OSD_NUM, a full buffer is submitted, and
      what is left at the end is submitted last; the first failing
      submission (numbered from `start`) ends it. */
  method SubmitInChunks<T>(xs: seq<T>, oks: seq<bool>, start: nat) returns (sent: seq<seq<T>>, ok: bool)
    ensures |sent| <= |Chunks(xs)| && sent == Chunks(xs)[..|sent|]
    ensures forall k :: start <= k < start + |sent| ==> SubmitOkAt(oks, k)
    ensures ok <==> |sent| == |Chunks(xs)|
    ensures !ok ==> !SubmitOkAt(oks, start + |sent|)
  {
    sent := [];
    var buf: seq<T> := [];
    var j := 0;
    while j < |xs|
      invariant 0 <= j <= |xs|
      invariant |sent| == j / MAX_OSD_NUM
      invariant sent == Chunks(xs)[..|sent|]
      invariant buf == xs[MAX_OSD_NUM * |sent| .. j]
      invariant forall k :: start <= k < start + |sent| ==> SubmitOkAt(oks, k)
    {
      buf := buf + [xs[j]];
      j := j + 1;
      if |buf| == MAX_OSD_NUM {
        ChunkAt(xs, |sent|);
        assert Chunks(xs)[|sent|] == buf;
        if !SubmitOkAt(oks, start + |sent|) {
          return sent, false;
        }
        assert Chunks(xs)[..|sent| + 1] == sent + [buf];
        sent := sent + [buf];
        buf := [];
      }
    }
    if |buf| > 0 {
      ChunkAt(xs, |sent|);
      assert Chunks(xs)[|sent|] == buf;
      if !SubmitOkAt(oks, start + |sent|) {
        return sent, false;
      }
      assert Chunks(xs)[..|sent| + 1] == sent + [buf];
      sent := sent + [buf];
    }
    assert |sent| == |Chunks(xs)|;
    ok := true;
  }

  /** One cng2dDrawRect call: a colour, up to MAX_OSD_NUM rectangles and
      the line width. */
  datatype Batch = Batch(color: nat, rects: seq<Rect>, lineWidth: nat)

  /** The draw calls for one colour's pieces, in order. */
  function Batches(color: nat, chunks: seq<seq<Rect>>, lineWidth: nat): (r: seq<Batch>)
    ensures |r| == |chunks|
    ensures forall i :: 0 <= i < |r| ==> r[i] == Batch(color, chunks[i], lineWidth)
  {
    if |chunks| == 0 then [] else [Batch(color, chunks[0], lineWidth)] + Batches(color, chunks[1..], lineWidth)
  }

  /** The draw calls for a whole colour map, colour after colour. */
  function Plan(groups: seq<Group>, lineWidth: nat): seq<Batch>
  {
    if |groups| == 0 then []
    else Batches(groups[0].color, Chunks(groups[0].rects), lineWidth) + Plan(groups[1..], lineWidth)
  }

  /** The rectangle lists of the batches of colour `c`, in order. */
  function ColorBatches(plan: seq<Batch>, c: nat): seq<seq<Rect>>
  {
    if |plan| == 0 then []
    else (if plan[0].color == c then [plan[0].rects] else []) + ColorBatches(plan[1..], c)
  }

  lemma {:induction false} ColorBatchesConcat(a: seq<Batch>, b: seq<Batch>, c: nat)
    ensures ColorBatches(a + b, c) == ColorBatches(a, c) + ColorBatches(b, c)
    decreases |a|
  {
    if |a| > 0 {
      assert (a + b)[1..] == a[1..] + b;
      ColorBatchesConcat(a[1..], b, c);
    } else {
      assert a + b == b;
    }
  }

  lemma {:induction false} ColorBatchesOfBatches(color: nat, chunks: seq<seq<Rect>>, lineWidth: nat, c: nat)
    ensures ColorBatches(Batches(color, chunks, lineWidth), c) == (if color == c then chunks else [])
    decreases |chunks|
  {
    if |chunks| > 0 {
      var bs := Batches(color, chunks, lineWidth);
      assert bs[1..] == Batches(color, chunks[1..], lineWidth);
      ColorBatchesOfBatches(color, chunks[1..], lineWidth, c);
      if color == c {
        assert [chunks[0]] + chunks[1..] == chunks;
      }
    }
  }

  /** Every draw call carries between 1 and MAX_OSD_NUM rectangles. */
  lemma {:induction false} PlanBatchSizes(groups: seq<Group>, lineWidth: nat)
    ensures forall i :: 0 <= i < |Plan(groups, lineWidth)| ==>
      1 <= |Plan(groups, lineWidth)[i].rects| <= MAX_OSD_NUM
    decreases |groups|
  {
    if |groups| > 0 {
      ChunksSpec(groups[0].rects);
      PlanBatchSizes(groups[1..], lineWidth);
    }
  }

  /** For an ordered colour map, the draw calls of each colour, put back
      together, are exactly the rectangles stored under that colour. */
  lemma {:induction false} PlanByColor(groups: seq<Group>, lineWidth: nat, c: nat)
    requires Ordered(groups)
    ensures Flatten(ColorBatches(Plan(groups, lineWidth), c)) == RectsFor(groups, c)
    decreases |groups|
  {
    if |groups| > 0 {
      var g := groups[0];
      var rest := groups[1..];
      var head := Batches(g.color, Chunks(g.rects), lineWidth);
      ColorBatchesConcat(head, Plan(rest, lineWidth), c);
      ColorBatchesOfBatches(g.color, Chunks(g.rects), lineWidth, c);
      FlattenConcat(ColorBatches(head, c), ColorBatches(Plan(rest, lineWidth), c));
      PlanByColor(rest, lineWidth, c);
      if g.color == c {
        ChunksSpec(g.rects);
        BelowFirstColor(rest, c);
      }
    }
  }

  /** The line width every draw call uses: the last box's, rounded down to
      even only when that box was not skipped (0 for no boxes, when nothing
      is drawn). */
  function LastLineWidth(bboxes: seq<(Bbox, nat, nat)>, width: nat, height: nat): nat
  {
    if |bboxes| == 0 then 0
    else
      var last := bboxes[|bboxes| - 1];
      if RectifyBox(last.0, width, height).None? then last.1 else EvenDown(last.1)
  }

  /** The drawing half of OsdDrawBboxes: colour after colour in ascending
      order, each colour's rectangles in pieces of MAX_OSD_NUM, then the
      final wait for all jobs (`waitOk`). */
  method SubmitGroups(groups: seq<Group>, lineWidth: nat, oks: seq<bool>, waitOk: bool)
    returns (r: int, drawn: seq<Batch>)
    ensures r == 0 || r == -1
    ensures |drawn| <= |Plan(groups, lineWidth)| && drawn == Plan(groups, lineWidth)[..|drawn|]
    ensures forall k :: 0 <= k < |drawn| ==> SubmitOkAt(oks, k)
    ensures |drawn| < |Plan(groups, lineWidth)| ==> !SubmitOkAt(oks, |drawn|)
    ensures r == 0 <==> |drawn| == |Plan(groups, lineWidth)| && waitOk
  {
    drawn := [];
    var gi := 0;
    while gi < |groups|
      invariant 0 <= gi <= |groups|
      invariant Plan(groups, lineWidth) == drawn + Plan(groups[gi..], lineWidth)
      invariant forall k :: 0 <= k < |drawn| ==> SubmitOkAt(oks, k)
    {
      var g := groups[gi];
      PlanUnfold(groups, gi, lineWidth);
      ghost var all := Batches(g.color, Chunks(g.rects), lineWidth);
      ghost var tail := Plan(groups[gi + 1..], lineWidth);
      var chunks, ok := SubmitInChunks(g.rects, oks, |drawn|);
      var part := Batches(g.color, chunks, lineWidth);
      assert part == all[..|part|];
      ghost var plan := Plan(groups, lineWidth);
      PrefixOfPlan(plan, drawn, all, part, tail);
      if !ok {
        drawn := drawn + part;
        return -1, drawn;
      }
      assert part == all;
      drawn := drawn + part;
      gi := gi + 1;
    }
    assert Plan(groups[gi..], lineWidth) == [];
    if !waitOk {
      return -1, drawn;
    }
    r := 0;
  }

  lemma PrefixOfPlan(plan: seq<Batch>, drawn: seq<Batch>, all: seq<Batch>, part: seq<Batch>, tail: seq<Batch>)
    requires plan == drawn + (all + tail) && |part| <= |all| && part == all[..|part|]
    ensures |drawn + part| <= |plan| && drawn + part == plan[..|drawn + part|]
    ensures |part| < |all| ==> |drawn + part| < |plan|
    ensures part == all ==> plan == (drawn + part) + tail
  {
  }

  lemma PlanUnfold(groups: seq<Group>, gi: nat, lineWidth: nat)
    requires gi < |groups|
    ensures Plan(groups[gi..], lineWidth) ==
      Batches(groups[gi].color, Chunks(groups[gi].rects), lineWidth) + Plan(groups[gi + 1..], lineWidth)
  {
    assert groups[gi..][1..] == groups[gi + 1..];
  }

  /** MpsService::OsdDrawBboxes: frames other than NV12/NV21 give -1; the
      boxes that fit are grouped by colour and drawn colour by colour in
      pieces of at most MAX_OSD_NUM, all with the last box's line width; the
      first failing hardware call gives -1. `oks` are the outcomes of the
      successive draw-and-submit pairs, `waitOk` that of cng2dWaitAllDone. */
  method OsdDrawBboxes(fmt: PixelFormat, width: nat, height: nat, bboxes: seq<(Bbox, nat, nat)>,
                       oks: seq<bool>, waitOk: bool) returns (r: int, drawn: seq<Batch>)
    ensures fmt == OtherPixelFormat ==> r == -1 && drawn == []
    ensures fmt != OtherPixelFormat ==>
      var plan := Plan(Grouped(Drawables(bboxes, width, height)), LastLineWidth(bboxes, width, height));
      |drawn| <= |plan| && drawn == plan[..|drawn|] &&
      (forall k :: 0 <= k < |drawn| ==> SubmitOkAt(oks, k)) &&
      (|drawn| < |plan| ==> !SubmitOkAt(oks, |drawn|)) &&
      (r == 0 <==> |drawn| == |plan| && waitOk) && (r == 0 || r == -1)
  {
    var surface := SurfaceFormat(fmt);
    if surface.None? {
      return -1, [];
    }
    var groups: seq<Group> := [];
    var lineWidth := 0;
    var i := 0;
    while i < |bboxes|
      invariant 0 <= i <= |bboxes|
      invariant groups == Grouped(Drawables(bboxes[..i], width, height))
      invariant lineWidth == LastLineWidth(bboxes[..i], width, height)
    {
      var (b, lw, color) := bboxes[i];
      assert bboxes[..i + 1][..i] == bboxes[..i];
      lineWidth := lw;
      var rect := RectifyBox(b, width, height);
      if rect.Some? {
        lineWidth := EvenDown(lineWidth);
        groups := AddRect(groups, color, rect.value);
      }
      i := i + 1;
    }
    assert bboxes[..i] == bboxes;
    r, drawn := SubmitGroups(groups, lineWidth, oks, waitOk);
  }

  /** Whatever OsdDrawBboxes draws is inside the frame, and under each
      colour it draws exactly that colour's fitted boxes, in list order. */
  lemma DrawnByColor(bboxes: seq<(Bbox, nat, nat)>, width: nat, height: nat, lineWidth: nat, c: nat)
    ensures var items := Drawables(bboxes, width, height);
      Flatten(ColorBatches(Plan(Grouped(items), lineWidth), c)) == RectsOf(items, c)
  {
    var items := Drawables(bboxes, width, height);
    GroupedMeaning(items);
    PlanByColor(Grouped(items), lineWidth, c);
  }

  // ---------------------------------------------------------------------
  // Filling boxes and putting text.

  /** The format test of OsdFillBboxes and OsdPutText as written:
      `fmt != UV || fmt != VU` holds for every format. */
  predicate FormatRefusedAsWritten(fmt: PixelFormat)
  {
    fmt != Yuv420SemiUV || fmt != Yuv420SemiVU
  }

  /** No frame gets past the test as written, so both calls always give
      -1; with the intended conjunction NV12 and NV21 frames pass. */
  lemma FillRefusesEveryFormat(fmt: PixelFormat)
    ensures FormatRefusedAsWritten(fmt)
    ensures FormatRefused(fmt) <==> fmt == OtherPixelFormat
  {
  }

  /** The intended test: anything but NV12 and NV21 is refused. */
  predicate FormatRefused(fmt: PixelFormat)
  {
    fmt != Yuv420SemiUV && fmt != Yuv420SemiVU
  }

  /** The filled rectangles with their colours, in list order. */
  function FillItems(bboxes: seq<(Bbox, nat)>, width: nat, height: nat): seq<(Rect, nat)>
  {
    if |bboxes| == 0 then []
    else
      var last := bboxes[|bboxes| - 1];
      var prior := FillItems(bboxes[..|bboxes| - 1], width, height);
      match RectifyBox(last.0, width, height)
      case None => prior
      case Some(rect) => prior + [(rect, last.1)]
  }

  /** MpsService::OsdFillBboxes with the intended format test: the boxes
      that fit go to the VGU in jobs of at most MAX_OSD_NUM, in list order;
      the first failing job gives -1. `oks` are the jobs' outcomes. */
  method OsdFillBboxes(fmt: PixelFormat, width: nat, height: nat, bboxes: seq<(Bbox, nat)>, oks: seq<bool>)
    returns (r: int, jobs: seq<seq<(Rect, nat)>>)
    ensures FormatRefused(fmt) ==> r == -1 && jobs == []
    ensures !FormatRefused(fmt) ==>
      var all := Chunks(FillItems(bboxes, width, height));
      |jobs| <= |all| && jobs == all[..|jobs|] &&
      (forall k :: 0 <= k < |jobs| ==> SubmitOkAt(oks, k)) &&
      (r == 0 <==> |jobs| == |all|) && (r == -1 <==> !SubmitOkAt(oks, |jobs|) && |jobs| < |all|)
  {
    if FormatRefused(fmt) {
      return -1, [];
    }
    var items: seq<(Rect, nat)> := [];
    var i := 0;
    while i < |bboxes|
      invariant 0 <= i <= |bboxes|
      invariant items == FillItems(bboxes[..i], width, height)
    {
      assert bboxes[..i + 1][..i] == bboxes[..i];
      var rect := RectifyBox(bboxes[i].0, width, height);
      if rect.Some? {
        items := items + [(rect.value, bboxes[i].1)];
      }
      i := i + 1;
    }
    assert bboxes[..i] == bboxes;
    var ok;
    jobs, ok := SubmitInChunks(items, oks, 0);
    r := if ok then 0 else -1;
  }

  /** One text overlay: its rectangle, the ARGB1555 bitmap (an address),
      the background colour and the bitmap's pitch. */
  datatype TextItem = TextItem(rect: Rect, bitmap: nat, bgColor: nat, pitch: nat)

  /** OsdPutText's rectangle for a text box: x and w are taken as given
      (the caller is trusted to align them), y and h are rounded down to
      even and the height fitted into the frame; nothing when the width or
      fitted height is 0. */
  function TextRect(b: Bbox, height: nat): (r: Option<Rect>)
    ensures r.Some? ==>
      r.value.x == U32(b.x) && r.value.w == U32(b.w) && r.value.w > 0 &&
      r.value.y % 2 == 0 && 0 < r.value.h && r.value.y + r.value.h < height
    ensures r.None? <==> U32(b.w) == 0 || FitLength(EvenDown(U32(b.y)), EvenDown(U32(b.h)), height) == 0
  {
    var y := EvenDown(U32(b.y));
    var h := FitLength(y, EvenDown(U32(b.h)), height);
    if U32(b.w) == 0 || h == 0 then None else Some(Rect(U32(b.x), y, U32(b.w), h))
  }

  /** The overlays placed, in list order. */
  function TextItems(texts: seq<(Bbox, nat, nat, nat)>, height: nat): seq<TextItem>
  {
    if |texts| == 0 then []
    else
      var last := texts[|texts| - 1];
      var prior := TextItems(texts[..|texts| - 1], height);
      match TextRect(last.0, height)
      case None => prior
      case Some(rect) => prior + [TextItem(rect, last.1, last.2, last.3)]
  }

  /** MpsService::OsdPutText with the intended format test: the overlays
      that fit go to the VGU in jobs of at most MAX_OSD_NUM, in list order;
      the first failing job gives -1. */
  method OsdPutText(fmt: PixelFormat, height: nat, texts: seq<(Bbox, nat, nat, nat)>, oks: seq<bool>)
    returns (r: int, jobs: seq<seq<TextItem>>)
    ensures FormatRefused(fmt) ==> r == -1 && jobs == []
    ensures !FormatRefused(fmt) ==>
      var all := Chunks(TextItems(texts, height));
      |jobs| <= |all| && jobs == all[..|jobs|] &&
      (forall k :: 0 <= k < |jobs| ==> SubmitOkAt(oks, k)) &&
      (r == 0 <==> |jobs| == |all|) && (r == -1 <==> !SubmitOkAt(oks, |jobs|) && |jobs| < |all|)
  {
    if FormatRefused(fmt) {
      return -1, [];
    }
    var items: seq<TextItem> := [];
    var i := 0;
    while i < |texts|
      invariant 0 <= i <= |texts|
      invariant items == TextItems(texts[..i], height)
    {
      assert texts[..i + 1][..i] == texts[..i];
      var (b, bitmap, bg, pitch) := texts[i];
      var rect := TextRect(b, height);
      if rect.Some? {
        items := items + [TextItem(rect.value, bitmap, bg, pitch)];
      }
      i := i + 1;
    }
    assert texts[..i] == texts;
    var ok;
    jobs, ok := SubmitInChunks(items, oks, 0);
    r := if ok then 0 else -1;
  }
}
