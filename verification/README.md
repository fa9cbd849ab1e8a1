# Paperdoll compositor

A Dafny model of `PaperdollDrawer` from ultima-file-drawer. The drawer builds a
character portrait (a "paperdoll") on a 262×324 canvas. It paints, in a fixed
order:

1. the background gump 0x7d1;
2. the body entry;
3. the worn items, in array order, each over what is already there.

Then it hands the name and the title to a font backend.

## Modules

- `Wrappers` (`wrappers.dfy`): the `Option` type, used for "this layer is
  skipped".
- `Entries` (`entries.dfy`): the layer entry and the decision `addEntry`
  makes about it. `ResolveGump` either skips the entry or gives a gump id:
  - it skips an index outside (0, 0xFFFF];
  - it keeps the index of a raw gump entry;
  - it skips an item the tile data does not mark wearable;
  - it moves a wearable item's value below 10000 onto the female sheet
    (+60000) or the male sheet (+50000).

  `SplitSheet` is the inverse of that gender remap.
- `Pixels` (`pixels.dfy`): colours, pixel runs and GD's `imagesetpixel`
  (`SetPixel`, which drops writes outside the canvas).
  - `PaintRun` and `PaintRuns` give, pixel by pixel, what a sequence of runs
    does to the canvas.
  - A (0,0,0) run is never drawn.
  - A run drawn while the drawer is positioned is shifted by (+8, +15).
  - A later run overwrites an earlier one.
- `Drawer` (`drawer.dfy`): the class `PaperdollDrawer`. The canvas is an
  `array2<Colour>` indexed `[x, y]`.
  - The four readers are `const` function fields. The gump index record and
    the hue table are opaque types.
  - `gumpPositioned` is a mutable field. It is set before the body is drawn
    and never cleared.
  - `AddGump` and `LoadRawGump` carry the source's run loops. `AddItems` is
    the item loop of `drawPaperdoll`, and `DrawPaperdoll` calls it.
    `AddEntry` has no loop: it branches on `ResolveGump`. Each method is
    proved against the pure functions `PaintRun`, `PaintRuns`,
    `PaintLayers`, `HueLog` and `Plan`.
  - `Plan(positioned, p)` is the sequence of gumps one drawing loads:
    background, body, items.
  - Two ghost fields record what the source hands to collaborators.
    `hueReads` lists the hue ids the hue reader is asked for; `HueLog`
    gives that list for a sequence of layers. `captions` lists the text
    lines given to the font backend.

Consequences of the code that the model makes explicit:
- The drawer keeps a `gumpPositioned` flag that is set before the body is
  drawn (line 76) and never reset. A second `drawPaperdoll` call on the
  same drawer therefore draws the background offset too
  (`RedrawDiffersInBackgroundOnly`). From the second call on, every
  drawing of the same paperdoll gives the same canvas and the same hue
  lookups (`RedrawsAgree`).
- Only `PaperdollDrawer.php` is modelled: one drawer, one layout, and text
  handed to `imagefttext`.
- The readers are not part of this model, so they are total functions here.

## Model

| member | source | states |
|---|---|---|
| `Entries.ResolveGump` | src/PaperdollDrawer/PaperdollDrawer.php:93-124 | an entry is drawn exactly when its index is in (0, 0xFFFF] and it is a raw gump or a wearable item; a raw gump is drawn with its own index, an item with the sheet gump of its tile-data value; a drawn id is positive |
| `Entries.OutOfRangeSkipped` | src/PaperdollDrawer/PaperdollDrawer.php:94-97 | an index above 0xFFFF or at most 0 is skipped whatever the rest of the entry says |
| `Entries.NotWearableSkipped` | src/PaperdollDrawer/PaperdollDrawer.php:107-111 | an item entry whose index's tile data is not wearable is skipped for either gender and every hue |
| `Entries.SheetCollision` | src/PaperdollDrawer/PaperdollDrawer.php:113-121 | the remap is not injective: a male value v below 10000 gives the same gump as a female item of value v + 50000, and a female value v the same as a male item of value v + 60000 |
| `Entries.SheetRanges` | src/PaperdollDrawer/PaperdollDrawer.php:113-121 | a value below 10000 lands in [60000, 70000) for a female entry and in [50000, 60000) for a male one; a value of 10000 or more is kept unchanged |
| `Entries.SheetRoundTrip` | src/PaperdollDrawer/PaperdollDrawer.php:113-121 | for a value below 10000 the gender remap loses nothing: value and gender are recovered from the gump id by SplitSheet (larger values can collide, see SheetCollision) |
| `Pixels.SetPixel` | src/PaperdollDrawer/PaperdollDrawer.php:153 | sets exactly one pixel; a write outside the canvas changes nothing |
| `Pixels.SpansExactly` | src/PaperdollDrawer/PaperdollDrawer.php:152-154 | a run spans exactly the pixels (x'+i, y') for 0 <= i < length, the ones the drawing loop writes |
| `Pixels.PaintRunsAppend` | src/PaperdollDrawer/PaperdollDrawer.php:131-133 | drawing runs `a` and then runs `b` is drawing `a + b` |
| `Pixels.UncoveredPixelKept` | src/PaperdollDrawer/PaperdollDrawer.php:150-155 | a pixel that no non-black run spans keeps its colour |
| `Pixels.LastRunWins` | src/PaperdollDrawer/PaperdollDrawer.php:150-154 | a pixel takes the colour of the last non-black run that spans it, whatever was there before |
| `Pixels.CoveredOccludes` | src/PaperdollDrawer/PaperdollDrawer.php:150-154 | once a non-black run spans a pixel, the pixel's earlier colour no longer matters |
| `Pixels.BlackRunInvisible` | src/PaperdollDrawer/PaperdollDrawer.php:150 | a (0,0,0) run can be removed from anywhere in a run sequence without changing any pixel |
| `Pixels.PositionedIsShift` | src/PaperdollDrawer/PaperdollDrawer.php:145-148 | runs drawn positioned land exactly (+8, +15) from where they land unpositioned |
| `Drawer.PaperdollDrawer.constructor` | src/PaperdollDrawer/PaperdollDrawer.php:30-42 | keeps the four readers; a new drawer is not positioned |
| `Drawer.PaperdollDrawer.AddGump` | src/PaperdollDrawer/PaperdollDrawer.php:136-156 | every canvas pixel becomes what PaintRun gives for the run at the current positioned flag: the run's colour on the pixels it spans if it is not black, the old colour everywhere else |
| `Drawer.PaperdollDrawer.LoadRawGump` | src/PaperdollDrawer/PaperdollDrawer.php:126-134 | the hue reader is asked for the hue id exactly when it is above 0; the art reader gets that hue or none; the canvas becomes the gump's runs drawn in order over the old canvas |
| `Drawer.PaperdollDrawer.AddEntry` | src/PaperdollDrawer/PaperdollDrawer.php:93-124 | a skipped entry leaves the canvas and the hue log unchanged; otherwise the resolved gump is drawn with the entry's hue, and the hue reader is asked only for a positive hue |
| `Drawer.PaperdollDrawer.AddText` | src/PaperdollDrawer/PaperdollDrawer.php:158-163 | hands the text to the font backend at x 40, size 10, colour (25,25,25) and the given baseline; no canvas pixel changes |
| `Drawer.PaperdollDrawer.AddItems` | src/PaperdollDrawer/PaperdollDrawer.php:82-84 | once positioned, the item entries are drawn in order over the canvas, and the hue reader is asked for exactly their drawn positive hues, in order |
| `Drawer.PaperdollDrawer.DrawPaperdoll` | src/PaperdollDrawer/PaperdollDrawer.php:65-91 | returns a fresh 262×324 canvas; every pixel is the layers of Plan drawn in order over transparency: background with the flag's previous value, then the body and the items positioned; the flag is set afterwards; the hue reader is asked for exactly the positive hues of the drawn layers, in order; name at 277, then title at 295 |
| `Drawer.PaperdollDrawer.HueLogAppend` | src/PaperdollDrawer/PaperdollDrawer.php:127 | the hue lookups of layers `a + b` are those of `a`, then those of `b` |
| `Drawer.PaperdollDrawer.EntryHueLog` | src/PaperdollDrawer/PaperdollDrawer.php:93-127 | one entry costs one hue lookup exactly when it is drawn and its hue is positive |
| `Drawer.PaperdollDrawer.PlanHueLog` | src/PaperdollDrawer/PaperdollDrawer.php:74-84 | a drawing looks up the background's hue, then the body's, then the items', each only if drawn and positive |
| `Drawer.PaperdollDrawer.UnhuedPaperdollReadsNoHue` | src/PaperdollDrawer/PaperdollDrawer.php:127 | a paperdoll whose body and items have no positive hue is drawn without consulting the hue reader |
| `Drawer.PaperdollDrawer.PlanPaint` | src/PaperdollDrawer/PaperdollDrawer.php:74-84 | drawing a plan is drawing the background, then the body over it, then the items over that |
| `Drawer.PaperdollDrawer.PaintLayersAppend` | src/PaperdollDrawer/PaperdollDrawer.php:79-84 | drawing layers `a` and then layers `b` is drawing `a + b` |
| `Drawer.PaperdollDrawer.UncoveredLayersKeep` | src/PaperdollDrawer/PaperdollDrawer.php:79-84 | a pixel no layer draws on keeps its colour |
| `Drawer.PaperdollDrawer.CoveredLayersOcclude` | src/PaperdollDrawer/PaperdollDrawer.php:82-84 | once some layer draws on a pixel, what was under the layers does not show |
| `Drawer.PaperdollDrawer.LaterLayersWin` | src/PaperdollDrawer/PaperdollDrawer.php:78-84 | where later layers draw, nothing drawn before them shows |
| `Drawer.PaperdollDrawer.PositionedLayerIsShift` | src/PaperdollDrawer/PaperdollDrawer.php:144-148 | a positioned gump lands exactly (+8, +15) from the same gump unpositioned |
| `Drawer.PaperdollDrawer.ItemLayersPositioned` | src/PaperdollDrawer/PaperdollDrawer.php:76-84 | every item layer is drawn positioned |
| `Drawer.PaperdollDrawer.ItemLayersAppend` | src/PaperdollDrawer/PaperdollDrawer.php:82-84 | the items are drawn in sequence order: the items of `a + b` load the gumps of `a`, then those of `b` |
| `Drawer.PaperdollDrawer.PlanShape` | src/PaperdollDrawer/PaperdollDrawer.php:73-84 | a drawing starts with background gump 0x7d1 without hue, placed with the flag's previous value; every later layer is positioned |
| `Drawer.PaperdollDrawer.RedrawDiffersInBackgroundOnly` | src/PaperdollDrawer/PaperdollDrawer.php:74-76 | a drawing on an already positioned drawer loads the same gumps as the first, except that the background is positioned too |
| `Drawer.RedrawsAgree` | src/PaperdollDrawer/PaperdollDrawer.php:65-91 | on one drawer, the second and third drawings of a paperdoll give pixel-equal canvases, and every drawing after the first looks up the hues of `Plan(true, p)` |
| `Drawer.PaperdollDrawer.ItemsHideBodyAndBackground` | src/PaperdollDrawer/PaperdollDrawer.php:78-84 | where the items draw, the pixel is what the items alone give; neither background nor body shows |

## Left out

- `with` (lines 49-58) only builds file paths and opens the MUL readers. That is I/O.
- The readers (`GumpIndexReader`, `GumpArtReader`, `TileDataReader`,
  `HueReader`) are not part of this model. They are given functions, so the
  model does not show a reader throwing on a missing or corrupt record. Hue
  application happens inside the art reader and is not modelled.
- `GumpEntry`, `BodyEntry` and `Paperdoll` are not part of this model. The
  `Entry` and `Paperdoll` datatypes stand for them. `BodyEntry(0x7d1, 0,
  FALSE)` is taken to be a raw gump entry with hue 0 for a male body.
- AddText: the TrueType rendering done by `imagefttext` is not modelled. The
  model records the line it would draw, with the font file left out, and
  leaves the canvas pixels unchanged.
- The GD canvas is a plain colour array.
  - `imagecreatetruecolor`, `imagesavealpha` and `imagefill` together become
    a canvas filled with `Transparent`.
  - Alpha blending is not modelled: every drawn colour is opaque, so a drawn
    pixel replaces the old one.
  - `imagecolorallocate` packs components without clamping. The model keeps
    the (r, g, b) triple as the reader gives it.
- Integers are unbounded. PHP's 64-bit integers cannot overflow on the
  +50000/+60000 remap of tile-data values.
- `src/Domain/Race.php` only maps race constants to classes that are not part
  of this model, and body ids are not visible. The body entry is an input.
