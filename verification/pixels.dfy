/**
  The canvas and the pixel runs painted onto it. A canvas is an `array2`
  of colours indexed `[x, y]`; what a sequence of runs does to it is given
  pixel by pixel by PaintRuns.
*/
module Pixels {
  /** A canvas pixel: the transparent fill, or an opaque RGB colour. */
  datatype Colour = Transparent | Rgb(r: int, g: int, b: int)

  /** A horizontal span of `length` pixels of one colour starting at (x, y). */
  datatype Run = Run(x: int, y: int, r: int, g: int, b: int, length: int)

  const Width := 262
  const Height := 324
  /** Shift applied to every run once the drawer is positioned. */
  const OffsetX := 8
  const OffsetY := 15

  /** A (0,0,0) run is the transparency marker and is never drawn. */
  predicate IsBlack(run: Run) {
    run.r == 0 && run.g == 0 && run.b == 0
  }

  function RunColour(run: Run): Colour {
    Rgb(run.r, run.g, run.b)
  }

  function StartX(run: Run, positioned: bool): int {
    if positioned then run.x + OffsetX else run.x
  }

  function StartY(run: Run, positioned: bool): int {
    if positioned then run.y + OffsetY else run.y
  }

  /** Whether the run, placed with or without the offset, spans pixel (x, y). */
  predicate Spans(run: Run, positioned: bool, x: int, y: int) {
    y == StartY(run, positioned) && StartX(run, positioned) <= x < StartX(run, positioned) + run.length
  }

  /** The colour of pixel (x, y), which was `c`, after the run is drawn. */
  function PaintRun(c: Colour, run: Run, positioned: bool, x: int, y: int): Colour {
    if !IsBlack(run) && Spans(run, positioned, x, y) then RunColour(run) else c
  }

  /** The colour of pixel (x, y), which was `c`, after the runs are drawn in order. */
  function PaintRuns(c: Colour, runs: seq<Run>, positioned: bool, x: int, y: int): Colour
    decreases |runs|
  {
    if runs == [] then c
    else PaintRun(PaintRuns(c, runs[..|runs| - 1], positioned, x, y), runs[|runs| - 1], positioned, x, y)
  }

  /** Some drawn (non-black) run spans pixel (x, y). */
  ghost predicate Covered(runs: seq<Run>, positioned: bool, x: int, y: int) {
    exists i :: 0 <= i < |runs| && !IsBlack(runs[i]) && Spans(runs[i], positioned, x, y)
  }

  /** The pixels a run writes, in the order the drawing loop writes them. */
  function RunPixels(run: Run, positioned: bool): seq<(int, int)> {
    seq(if run.length < 0 then 0 else run.length,
        i => (StartX(run, positioned) + i, StartY(run, positioned)))
  }

  /** Spans is exactly the set of pixels (x' + i, y') for 0 <= i < length. */
  lemma SpansExactly(run: Run, positioned: bool, x: int, y: int)
    ensures Spans(run, positioned, x, y) <==> (x, y) in RunPixels(run, positioned)
  {
    var pixels := RunPixels(run, positioned);
    if Spans(run, positioned, x, y) {
      assert pixels[x - StartX(run, positioned)] == (x, y);
    }
  }

  /** Drawing `a` then `b` is drawing `a + b`. */
  lemma {:induction false} PaintRunsAppend(c: Colour, a: seq<Run>, b: seq<Run>, positioned: bool, x: int, y: int)
    ensures PaintRuns(c, a + b, positioned, x, y) ==
            PaintRuns(PaintRuns(c, a, positioned, x, y), b, positioned, x, y)
    decreases |b|
  {
    if b == [] {
      assert a + b == a;
    } else {
      var b' := b[..|b| - 1];
      assert (a + b)[..|a + b| - 1] == a + b';
      PaintRunsAppend(c, a, b', positioned, x, y);
    }
  }

  /** A pixel no drawn run spans keeps its colour. */
  lemma {:induction false} UncoveredPixelKept(c: Colour, runs: seq<Run>, positioned: bool, x: int, y: int)
    requires !Covered(runs, positioned, x, y)
    ensures PaintRuns(c, runs, positioned, x, y) == c
    decreases |runs|
  {
    if runs != [] {
      var init := runs[..|runs| - 1];
      assert !Covered(init, positioned, x, y) by {
        forall i | 0 <= i < |init|
          ensures IsBlack(init[i]) || !Spans(init[i], positioned, x, y)
        {
          assert init[i] == runs[i];
        }
      }
      UncoveredPixelKept(c, init, positioned, x, y);
    }
  }

  /**
    The last drawn run spanning a pixel decides its colour: later runs win
    over earlier ones, and the pixel's previous colour does not matter.
  */
  lemma {:induction false} LastRunWins(c: Colour, runs: seq<Run>, j: int, positioned: bool, x: int, y: int)
    requires 0 <= j < |runs|
    requires !IsBlack(runs[j]) && Spans(runs[j], positioned, x, y)
    requires forall i :: j < i < |runs| ==> IsBlack(runs[i]) || !Spans(runs[i], positioned, x, y)
    ensures PaintRuns(c, runs, positioned, x, y) == RunColour(runs[j])
    decreases |runs|
  {
    var init := runs[..|runs| - 1];
    if j < |runs| - 1 {
      assert init[j] == runs[j];
      forall i | j < i < |init|
        ensures IsBlack(init[i]) || !Spans(init[i], positioned, x, y)
      {
        assert init[i] == runs[i];
      }
      LastRunWins(c, init, j, positioned, x, y);
    }
  }

  /** Once a drawn run spans a pixel, what was beneath it no longer shows. */
  lemma {:induction false} CoveredOccludes(c1: Colour, c2: Colour, runs: seq<Run>, positioned: bool, x: int, y: int)
    requires Covered(runs, positioned, x, y)
    ensures PaintRuns(c1, runs, positioned, x, y) == PaintRuns(c2, runs, positioned, x, y)
    decreases |runs|
  {
    var last := runs[|runs| - 1];
    var init := runs[..|runs| - 1];
    if IsBlack(last) || !Spans(last, positioned, x, y) {
      var i :| 0 <= i < |runs| && !IsBlack(runs[i]) && Spans(runs[i], positioned, x, y);
      assert i < |init| && init[i] == runs[i];
      CoveredOccludes(c1, c2, init, positioned, x, y);
    }
  }

  /** A black run can be dropped from anywhere in a sequence without changing any pixel. */
  lemma BlackRunInvisible(c: Colour, a: seq<Run>, run: Run, b: seq<Run>, positioned: bool, x: int, y: int)
    requires IsBlack(run)
    ensures PaintRuns(c, a + [run] + b, positioned, x, y) == PaintRuns(c, a + b, positioned, x, y)
  {
    PaintRunsAppend(c, a + [run], b, positioned, x, y);
    PaintRunsAppend(c, a, [run], positioned, x, y);
    PaintRunsAppend(c, a, b, positioned, x, y);
  }

  /**
    Positioning is a translation: drawn positioned, every run lands exactly
    (OffsetX, OffsetY) away from where it lands unpositioned.
  */
  lemma {:induction false} PositionedIsShift(c: Colour, runs: seq<Run>, x: int, y: int)
    ensures PaintRuns(c, runs, true, x + OffsetX, y + OffsetY) == PaintRuns(c, runs, false, x, y)
    decreases |runs|
  {
    if runs != [] {
      PositionedIsShift(c, runs[..|runs| - 1], x, y);
    }
  }

  /**
    Models GD's `imagesetpixel`: one pixel is set, and a write outside the
    canvas is silently dropped.
  */
  method SetPixel(canvas: array2<Colour>, x: int, y: int, colour: Colour)
    modifies canvas
    ensures forall px, py :: 0 <= px < canvas.Length0 && 0 <= py < canvas.Length1 ==>
      canvas[px, py] == if px == x && py == y then colour else old(canvas[px, py])
  {
    if 0 <= x < canvas.Length0 && 0 <= y < canvas.Length1 {
      canvas[x, y] := colour;
    }
  }
}
