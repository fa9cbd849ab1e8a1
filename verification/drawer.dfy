/**
  The paperdoll drawer: it paints a background gump, a body and the worn
  items onto a 262x324 canvas, in that order, and then adds the name and
  title lines.
*/
module Drawer {
  import opened Wrappers
  import opened Entries
  import opened Pixels

  /** A decoded hue table, as the hue reader returns it. */
  type Hue
  /** A gump's index record, as the gump index reader returns it. */
  type GumpData

  /** What to draw: a body entry, the worn items in paint order, and two text lines. */
  datatype Paperdoll = Paperdoll(body: Entry, items: seq<Entry>, name: string, title: string)

  /** One call of the gump loader: which gump, with which hue id, positioned or not. */
  datatype Layer = Layer(gumpId: int, hueId: int, positioned: bool)

  /** A text line handed to the font backend: text, position, point size and colour. */
  datatype TextLine = TextLine(text: string, x: int, y: int, size: int, colour: Colour)

  const NameY := 277
  const TitleY := 295
  const TextX := 40
  const TextSize := 10
  const TextColour := Rgb(25, 25, 25)

  class PaperdollDrawer {
    const gumpIndexReader: int -> GumpData
    const gumpArtReader: (GumpData, Option<Hue>) -> seq<Run>
    const tileDataReader: int -> ItemData
    const hueReader: int -> Hue

    /** Whether runs are shifted by (OffsetX, OffsetY); set once and never cleared. */
    var gumpPositioned: bool

    /** Every hue id the hue reader was asked for, in order. */
    ghost var hueReads: seq<int>
    /** Every text line handed to the font backend, in order. */
    ghost var captions: seq<TextLine>

    constructor (gumpIndexReader: int -> GumpData,
                 gumpArtReader: (GumpData, Option<Hue>) -> seq<Run>,
                 tileDataReader: int -> ItemData,
                 hueReader: int -> Hue)
      ensures this.gumpIndexReader == gumpIndexReader && this.gumpArtReader == gumpArtReader
      ensures this.tileDataReader == tileDataReader && this.hueReader == hueReader
      ensures !gumpPositioned
      ensures hueReads == [] && captions == []
    {
      this.gumpIndexReader := gumpIndexReader;
      this.gumpArtReader := gumpArtReader;
      this.tileDataReader := tileDataReader;
      this.hueReader := hueReader;
      gumpPositioned := false;
      hueReads, captions := [], [];
    }

    /** The hue handed to the art reader: none for a hue id of 0 or less. */
    function HueFor(hueId: int): Option<Hue> {
      if hueId > 0 then Some(hueReader(hueId)) else None
    }

    /** The runs the art reader yields for a layer. */
    function LayerRuns(l: Layer): seq<Run> {
      gumpArtReader(gumpIndexReader(l.gumpId), HueFor(l.hueId))
    }

    /** The colour of pixel (x, y), which was `c`, after the layers are drawn in order. */
    function PaintLayers(c: Colour, layers: seq<Layer>, x: int, y: int): Colour
      decreases |layers|
    {
      if layers == [] then c
      else
        var last := layers[|layers| - 1];
        PaintRuns(PaintLayers(c, layers[..|layers| - 1], x, y), LayerRuns(last), last.positioned, x, y)
    }

    /** The hue ids the hue reader is asked for while the layers are drawn: the positive ones, in order. */
    function HueLog(layers: seq<Layer>): seq<int>
      decreases |layers|
    {
      if layers == [] then []
      else
        var last := layers[|layers| - 1];
        HueLog(layers[..|layers| - 1]) + (if last.hueId > 0 then [last.hueId] else [])
    }

    /** The gump an entry loads, if it is not skipped. */
    function EntryLayers(e: Entry, positioned: bool): seq<Layer> {
      match ResolveGump(e, tileDataReader)
      case None => []
      case Some(g) => [Layer(g, e.hue, positioned)]
    }

    /** The gumps the item entries load, in item order; items are always positioned. */
    function ItemLayers(items: seq<Entry>): seq<Layer>
      decreases |items|
    {
      if items == [] then []
      else ItemLayers(items[..|items| - 1]) + EntryLayers(items[|items| - 1], true)
    }

    /**
      The gumps one drawing of `p` loads when the drawer starts with the
      given positioned flag: background, body, items.
    */
    function Plan(positioned: bool, p: Paperdoll): seq<Layer> {
      EntryLayers(Background, positioned) + EntryLayers(p.body, true) + ItemLayers(p.items)
    }

    /** Draws one run (`addGump`). */
    method AddGump(canvas: array2<Colour>, datum: Run)
      modifies canvas
      ensures forall px, py :: 0 <= px < canvas.Length0 && 0 <= py < canvas.Length1 ==>
        canvas[px, py] == PaintRun(old(canvas[px, py]), datum, gumpPositioned, px, py)
    {
      var x, y := datum.x, datum.y;
      if gumpPositioned {
        x := x + OffsetX;
        y := y + OffsetY;
      }
      if datum.r != 0 || datum.g != 0 || datum.b != 0 {
        var colour := Rgb(datum.r, datum.g, datum.b);
        var i := 0;
        while i < datum.length
          invariant x == StartX(datum, gumpPositioned) && y == StartY(datum, gumpPositioned)
          invariant 0 <= i && (i <= datum.length || i == 0)
          invariant forall px, py :: 0 <= px < canvas.Length0 && 0 <= py < canvas.Length1 ==>
            canvas[px, py] == if py == y && x <= px < x + i then colour else old(canvas[px, py])
          decreases datum.length - i
        {
          SetPixel(canvas, x + i, y, colour);
          i := i + 1;
        }
      }
    }

    /** Loads a gump with an optional hue and draws its runs in order (`loadRawGump`). */
    method LoadRawGump(canvas: array2<Colour>, index: int, hueId: int)
      modifies canvas, this`hueReads
      ensures hueReads == old(hueReads) + (if hueId > 0 then [hueId] else [])
      ensures forall px, py :: 0 <= px < canvas.Length0 && 0 <= py < canvas.Length1 ==>
        canvas[px, py] == PaintLayers(old(canvas[px, py]), [Layer(index, hueId, gumpPositioned)], px, py)
    {
      var hue: Option<Hue> := None;
      if hueId > 0 {
        hue := Some(hueReader(hueId));
        hueReads := hueReads + [hueId];
      }
      var gumpData := gumpIndexReader(index);
      var data := gumpArtReader(gumpData, hue);
      ghost var layer := Layer(index, hueId, gumpPositioned);
      assert data == LayerRuns(layer);

      ghost var looked := hueReads;
      for k := 0 to |data|
        invariant hueReads == looked
        invariant forall px, py :: 0 <= px < canvas.Length0 && 0 <= py < canvas.Length1 ==>
          canvas[px, py] == PaintRuns(old(canvas[px, py]), data[..k], gumpPositioned, px, py)
      {
        AddGump(canvas, data[k]);
        assert data[..k + 1][..k] == data[..k];
      }
      assert data[..|data|] == data;
      assert [layer][..0] == [];
    }

    /** Resolves an entry and draws its gump unless it is skipped (`addEntry`). */
    method AddEntry(canvas: array2<Colour>, entry: Entry)
      modifies canvas, this`hueReads
      ensures hueReads == old(hueReads) +
        (if ResolveGump(entry, tileDataReader).Some? && entry.hue > 0 then [entry.hue] else [])
      ensures forall px, py :: 0 <= px < canvas.Length0 && 0 <= py < canvas.Length1 ==>
        canvas[px, py] == PaintLayers(old(canvas[px, py]), EntryLayers(entry, gumpPositioned), px, py)
    {
      match ResolveGump(entry, tileDataReader)
      case None =>
      case Some(gumpId) =>
        LoadRawGump(canvas, gumpId, entry.hue);
    }

    /**
      Stands for `addText`: the line is handed to the font backend, which is
      not modelled, so no canvas pixel changes.
    */
    method AddText(canvas: array2<Colour>, text: string, y: int)
      modifies this`captions
      ensures captions == old(captions) + [TextLine(text, TextX, y, TextSize, TextColour)]
    {
      captions := captions + [TextLine(text, TextX, y, TextSize, TextColour)];
    }

    /**
      Draws the worn items in order, each over what is already on the canvas
      (the item loop of `drawPaperdoll`, which runs once the drawer is
      positioned).
    */
    method AddItems(canvas: array2<Colour>, items: seq<Entry>)
      requires gumpPositioned
      modifies canvas, this`hueReads
      ensures hueReads == old(hueReads) + HueLog(ItemLayers(items))
      ensures forall px, py :: 0 <= px < canvas.Length0 && 0 <= py < canvas.Length1 ==>
        canvas[px, py] == PaintLayers(old(canvas[px, py]), ItemLayers(items), px, py)
    {
      assert items[..0] == [];
      for k := 0 to |items|
        invariant hueReads == old(hueReads) + HueLog(ItemLayers(items[..k]))
        invariant forall px, py :: 0 <= px < canvas.Length0 && 0 <= py < canvas.Length1 ==>
          canvas[px, py] == PaintLayers(old(canvas[px, py]), ItemLayers(items[..k]), px, py)
      {
        ItemHueStep(items, k, old(hueReads));
        AddEntry(canvas, items[k]);
        forall px, py | 0 <= px < canvas.Length0 && 0 <= py < canvas.Length1
          ensures canvas[px, py] == PaintLayers(old(canvas[px, py]), ItemLayers(items[..k + 1]), px, py)
        {
          ItemPaintStep(old(canvas[px, py]), items, k, px, py);
        }
      }
      assert items[..|items|] == items;
    }

    /** Draws a whole paperdoll onto a fresh transparent canvas (`drawPaperdoll`). */
    method DrawPaperdoll(p: Paperdoll) returns (canvas: array2<Colour>)
      modifies this`gumpPositioned, this`hueReads, this`captions
      ensures fresh(canvas) && canvas.Length0 == Width && canvas.Length1 == Height
      ensures gumpPositioned
      ensures hueReads == old(hueReads) + HueLog(Plan(old(gumpPositioned), p))
      ensures forall px, py :: 0 <= px < Width && 0 <= py < Height ==>
        canvas[px, py] == PaintLayers(Transparent, Plan(old(gumpPositioned), p), px, py)
      ensures captions == old(captions) +
        [TextLine(p.name, TextX, NameY, TextSize, TextColour),
         TextLine(p.title, TextX, TitleY, TextSize, TextColour)]
    {
      canvas := new Colour[Width, Height]((px, py) => Transparent);
      ghost var positioned := gumpPositioned;
      AddEntry(canvas, Background);
      gumpPositioned := true;
      AddEntry(canvas, p.body);
      AddItems(canvas, p.items);
      PlanHueLog(positioned, p, old(hueReads));
      forall px, py | 0 <= px < Width && 0 <= py < Height
        ensures canvas[px, py] == PaintLayers(Transparent, Plan(positioned, p), px, py)
      {
        PlanPaint(positioned, p, px, py);
      }

      AddText(canvas, p.name, NameY);
      AddText(canvas, p.title, TitleY);
    }

    /** Drawing a plan is drawing the background, then the body, then the items. */
    lemma PlanPaint(positioned: bool, p: Paperdoll, x: int, y: int)
      ensures PaintLayers(Transparent, Plan(positioned, p), x, y) ==
        PaintLayers(PaintLayers(PaintLayers(Transparent, EntryLayers(Background, positioned), x, y),
                                EntryLayers(p.body, true), x, y),
                    ItemLayers(p.items), x, y)
    {
      var background, body := EntryLayers(Background, positioned), EntryLayers(p.body, true);
      PaintLayersAppend(Transparent, background + body, ItemLayers(p.items), x, y);
      PaintLayersAppend(Transparent, background, body, x, y);
    }

    /**
      The hue lookups of a plan, appended to a log `h`: the background's hue,
      if it is drawn and positive, then the body's, then the items'.
    */
    lemma PlanHueLog(positioned: bool, p: Paperdoll, h: seq<int>)
      ensures h + HueLog(Plan(positioned, p)) ==
        h + (if ResolveGump(Background, tileDataReader).Some? && Background.hue > 0 then [Background.hue] else [])
          + (if ResolveGump(p.body, tileDataReader).Some? && p.body.hue > 0 then [p.body.hue] else [])
          + HueLog(ItemLayers(p.items))
    {
      var background, body := EntryLayers(Background, positioned), EntryLayers(p.body, true);
      HueLogAppend(background + body, ItemLayers(p.items));
      HueLogAppend(background, body);
      EntryHueLog(Background, positioned);
      EntryHueLog(p.body, true);
    }

    /** The items up to k + 1 load what the items up to k load, then item k. */
    lemma ItemLayersStep(items: seq<Entry>, k: int)
      requires 0 <= k < |items|
      ensures ItemLayers(items[..k + 1]) == ItemLayers(items[..k]) + EntryLayers(items[k], true)
    {
      assert items[..k + 1][..k] == items[..k];
    }

    /** Drawing the items up to k + 1 is drawing the items up to k, then item k. */
    lemma ItemPaintStep(c: Colour, items: seq<Entry>, k: int, x: int, y: int)
      requires 0 <= k < |items|
      ensures PaintLayers(c, ItemLayers(items[..k + 1]), x, y) ==
        PaintLayers(PaintLayers(c, ItemLayers(items[..k]), x, y), EntryLayers(items[k], true), x, y)
    {
      ItemLayersStep(items, k);
      PaintLayersAppend(c, ItemLayers(items[..k]), EntryLayers(items[k], true), x, y);
    }

    /**
      The hue lookups of the items up to k + 1, appended to a log `h`: those
      of the items up to k, then item k's.
    */
    lemma ItemHueStep(items: seq<Entry>, k: int, h: seq<int>)
      requires 0 <= k < |items|
      ensures h + HueLog(ItemLayers(items[..k + 1])) == h + HueLog(ItemLayers(items[..k])) +
        if ResolveGump(items[k], tileDataReader).Some? && items[k].hue > 0 then [items[k].hue] else []
    {
      ItemLayersStep(items, k);
      EntryHueLog(items[k], true);
      HueLogAppend(ItemLayers(items[..k]), EntryLayers(items[k], true));
    }

    /** The hue lookups of one entry: its hue, if it is drawn and its hue is positive. */
    lemma EntryHueLog(e: Entry, positioned: bool)
      ensures HueLog(EntryLayers(e, positioned)) ==
        if ResolveGump(e, tileDataReader).Some? && e.hue > 0 then [e.hue] else []
    {
      if ResolveGump(e, tileDataReader).Some? {
        assert EntryLayers(e, positioned)[..0] == [];
      }
    }

    /** The hue lookups of `a + b` are those of `a`, then those of `b`. */
    lemma {:induction false} HueLogAppend(a: seq<Layer>, b: seq<Layer>)
      ensures HueLog(a + b) == HueLog(a) + HueLog(b)
      decreases |b|
    {
      if b == [] {
        assert a + b == a;
      } else {
        var b' := b[..|b| - 1];
        assert (a + b)[..|a + b| - 1] == a + b';
        HueLogAppend(a, b');
      }
    }

    /** Items whose hues are all 0 or less never consult the hue reader. */
    lemma {:induction false} UnhuedItemsReadNoHue(items: seq<Entry>)
      requires forall k :: 0 <= k < |items| ==> items[k].hue <= 0
      ensures HueLog(ItemLayers(items)) == []
      decreases |items|
    {
      if items != [] {
        var init, last := items[..|items| - 1], items[|items| - 1];
        UnhuedItemsReadNoHue(init);
        EntryHueLog(last, true);
        HueLogAppend(ItemLayers(init), EntryLayers(last, true));
      }
    }

    /** A paperdoll whose body and items have no positive hue is drawn without any hue lookup. */
    lemma UnhuedPaperdollReadsNoHue(positioned: bool, p: Paperdoll)
      requires p.body.hue <= 0 && forall k :: 0 <= k < |p.items| ==> p.items[k].hue <= 0
      ensures HueLog(Plan(positioned, p)) == []
    {
      PlanHueLog(positioned, p, []);
      UnhuedItemsReadNoHue(p.items);
    }

    /** Drawing `a` then `b` is drawing `a + b`. */
    lemma {:induction false} PaintLayersAppend(c: Colour, a: seq<Layer>, b: seq<Layer>, x: int, y: int)
      ensures PaintLayers(c, a + b, x, y) == PaintLayers(PaintLayers(c, a, x, y), b, x, y)
      decreases |b|
    {
      if b == [] {
        assert a + b == a;
      } else {
        var b' := b[..|b| - 1];
        assert (a + b)[..|a + b| - 1] == a + b';
        PaintLayersAppend(c, a, b', x, y);
      }
    }

    /** Some layer has a drawn run spanning pixel (x, y). */
    ghost predicate LayersCover(layers: seq<Layer>, x: int, y: int) {
      exists j :: 0 <= j < |layers| && Covered(LayerRuns(layers[j]), layers[j].positioned, x, y)
    }

    /** A pixel no layer draws on keeps its colour. */
    lemma {:induction false} UncoveredLayersKeep(c: Colour, layers: seq<Layer>, x: int, y: int)
      requires !LayersCover(layers, x, y)
      ensures PaintLayers(c, layers, x, y) == c
      decreases |layers|
    {
      if layers != [] {
        var init, last := layers[..|layers| - 1], layers[|layers| - 1];
        assert !LayersCover(init, x, y) by {
          forall j | 0 <= j < |init|
            ensures !Covered(LayerRuns(init[j]), init[j].positioned, x, y)
          {
            assert init[j] == layers[j];
          }
        }
        UncoveredLayersKeep(c, init, x, y);
        UncoveredPixelKept(c, LayerRuns(last), last.positioned, x, y);
      }
    }

    /** Once some layer draws on a pixel, what was beneath the layers no longer shows. */
    lemma {:induction false} CoveredLayersOcclude(c1: Colour, c2: Colour, layers: seq<Layer>, x: int, y: int)
      requires LayersCover(layers, x, y)
      ensures PaintLayers(c1, layers, x, y) == PaintLayers(c2, layers, x, y)
      decreases |layers|
    {
      var init, last := layers[..|layers| - 1], layers[|layers| - 1];
      var below1, below2 := PaintLayers(c1, init, x, y), PaintLayers(c2, init, x, y);
      if Covered(LayerRuns(last), last.positioned, x, y) {
        CoveredOccludes(below1, below2, LayerRuns(last), last.positioned, x, y);
      } else {
        var j :| 0 <= j < |layers| && Covered(LayerRuns(layers[j]), layers[j].positioned, x, y);
        assert j < |init| && init[j] == layers[j];
        CoveredLayersOcclude(c1, c2, init, x, y);
      }
    }

    /** Later layers win: where `b` draws, nothing `a` drew before it shows. */
    lemma LaterLayersWin(c: Colour, a: seq<Layer>, b: seq<Layer>, x: int, y: int)
      requires LayersCover(b, x, y)
      ensures PaintLayers(c, a + b, x, y) == PaintLayers(c, b, x, y)
    {
      PaintLayersAppend(c, a, b, x, y);
      CoveredLayersOcclude(PaintLayers(c, a, x, y), c, b, x, y);
    }

    /** A positioned layer lands exactly (OffsetX, OffsetY) away from the same layer unpositioned. */
    lemma PositionedLayerIsShift(c: Colour, gumpId: int, hueId: int, x: int, y: int)
      ensures PaintLayers(c, [Layer(gumpId, hueId, true)], x + OffsetX, y + OffsetY) ==
              PaintLayers(c, [Layer(gumpId, hueId, false)], x, y)
    {
      assert [Layer(gumpId, hueId, true)][..0] == [] == [Layer(gumpId, hueId, false)][..0];
      PositionedIsShift(c, LayerRuns(Layer(gumpId, hueId, false)), x, y);
    }

    /** Item layers are always positioned. */
    lemma {:induction false} ItemLayersPositioned(items: seq<Entry>)
      ensures forall j :: 0 <= j < |ItemLayers(items)| ==> ItemLayers(items)[j].positioned
      decreases |items|
    {
      if items != [] {
        ItemLayersPositioned(items[..|items| - 1]);
      }
    }

    /** The items are drawn in sequence order: `a + b` draws the layers of `a`, then those of `b`. */
    lemma {:induction false} ItemLayersAppend(a: seq<Entry>, b: seq<Entry>)
      ensures ItemLayers(a + b) == ItemLayers(a) + ItemLayers(b)
      decreases |b|
    {
      if b == [] {
        assert a + b == a;
      } else {
        var b' := b[..|b| - 1];
        assert (a + b)[..|a + b| - 1] == a + b';
        ItemLayersAppend(a, b');
      }
    }

    /**
      The shape of one drawing: first the background gump 0x7d1 without hue,
      placed with the flag the drawer had on entry; every later layer
      (body, then items) is positioned.
    */
    lemma PlanShape(positioned: bool, p: Paperdoll)
      ensures |Plan(positioned, p)| >= 1
      ensures Plan(positioned, p)[0] == Layer(0x7d1, 0, positioned)
      ensures forall j :: 1 <= j < |Plan(positioned, p)| ==> Plan(positioned, p)[j].positioned
    {
      ItemLayersPositioned(p.items);
      var bodyAndItems := EntryLayers(p.body, true) + ItemLayers(p.items);
      assert Plan(positioned, p) == [Layer(0x7d1, 0, positioned)] + bodyAndItems;
      forall j | 1 <= j < |Plan(positioned, p)|
        ensures Plan(positioned, p)[j].positioned
      {
        assert Plan(positioned, p)[j] == bodyAndItems[j - 1];
        if j - 1 >= |EntryLayers(p.body, true)| {
          assert bodyAndItems[j - 1] == ItemLayers(p.items)[j - 1 - |EntryLayers(p.body, true)|];
        }
      }
    }

    /**
      Drawing the same paperdoll again differs from the first drawing on a
      fresh drawer in one layer only: the background, now positioned.
    */
    lemma RedrawDiffersInBackgroundOnly(p: Paperdoll)
      ensures Plan(false, p)[0] == Layer(0x7d1, 0, false) && Plan(true, p)[0] == Layer(0x7d1, 0, true)
      ensures Plan(false, p)[1..] == Plan(true, p)[1..]
    {
    }

    /** Where the items draw, neither the background nor the body shows. */
    lemma ItemsHideBodyAndBackground(positioned: bool, p: Paperdoll, x: int, y: int)
      requires LayersCover(ItemLayers(p.items), x, y)
      ensures PaintLayers(Transparent, Plan(positioned, p), x, y) ==
              PaintLayers(Transparent, ItemLayers(p.items), x, y)
    {
      LaterLayersWin(Transparent, EntryLayers(Background, positioned) + EntryLayers(p.body, true), ItemLayers(p.items), x, y);
    }
  }

  /**
    From the second drawing on, a drawer paints the same paperdoll
    identically: the first drawing leaves the flag set, so every later one
    follows `Plan(true, p)`, pixels and hue lookups alike.
  */
  method RedrawsAgree(d: PaperdollDrawer, p: Paperdoll) returns (second: array2<Colour>, third: array2<Colour>)
    modifies d`gumpPositioned, d`hueReads, d`captions
    ensures second.Length0 == third.Length0 == Width && second.Length1 == third.Length1 == Height
    ensures forall px, py :: 0 <= px < Width && 0 <= py < Height ==> second[px, py] == third[px, py]
    ensures d.hueReads == old(d.hueReads) + d.HueLog(d.Plan(old(d.gumpPositioned), p)) +
      d.HueLog(d.Plan(true, p)) + d.HueLog(d.Plan(true, p))
  {
    var first := d.DrawPaperdoll(p);
    second := d.DrawPaperdoll(p);
    third := d.DrawPaperdoll(p);
  }
}
