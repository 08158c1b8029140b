# Wallpaper visualizer — a Dafny model

The modelled program previews a wallpaper image tiled across a wall of
given width w and height, in a browser.  Its one component shrinks the
wall by a factor `scale` to fit a stage of at most 1000 x 800 units,
stretches the image to the wall's height, lays ceil(w·scale / tile width)
+ 4 copies of it side by side, starting two copies before the one it
centres, and lets the user pan the pattern horizontally by dragging, by at
most one tile width either way.

The model has four modules:

- `Wrappers` (wrappers.dfy): the `Option` type.
- `Layout` (layout.dfy): the layout arithmetic as functions over `real`
  (scale, tile width, repetition count, centring term, stage size), the
  tile list of one render pass as the function `Tiles`, and the render
  pass's tile loop as the methods `LayoutPass` and `LayTiles`.  The lemmas
  state the layout's guarantees: the wall fits the stage, the tile count,
  the tile shape, tiles abutting, the centred index-0 tile, and the rigid
  pan shift.
- `Drag` (drag.dfy): the drag state machine as functions (`Start`, `Move`,
  `End`, `Step`, `Run`) with lemmas about event sequences.  The main one
  is that the offset stays within a fixed bound.
- `Visualizer` (visualizer.dfy): the class `WallpaperVisualizer`.  Its
  fields are the component's state and refs: the loaded image, the pan
  offset, the stored scale, the drag flag and anchor, and the layer's
  tiles.  Its methods are the render pass and the event handlers.  The
  render pass's and the handlers' postconditions tie the new state to the
  `Layout` and `Drag` functions.

JavaScript numbers are idealised as `real`.  Wall width, wall height and
the image's sides are taken to be positive.  An image is a `Bitmap`: a
width and a height, both positive.

Two behaviours of the code worth knowing:

- With no image loaded, the render pass returns at once (line 34 of WallpaperVisualizer.tsx) and
  leaves whatever tiles are on the layer; it does not clear the viewport.
  The layer starts out empty, so before any image is loaded the viewport
  is empty.
- The tiles do not always cover the visible width.
  `Layout.NarrowTilesLeaveLeftGap` gives an input where the leftmost tile
  starts at x = 150.

## Model

| member | source | states |
|---|---|---|
| Layout.Scale | wallpaper-visualizer/src/components/WallpaperVisualizer.tsx:40-42 | the stored scale lies in (0, 1] and equals min(1, 1000/w, 800/h) |
| Layout.Ceil | wallpaper-visualizer/src/components/WallpaperVisualizer.tsx:47 | Math.ceil: the least integer not below its argument |
| Layout.TileWidth | wallpaper-visualizer/src/components/WallpaperVisualizer.tsx:43 | the tile width is positive and keeps the image's aspect ratio at the scaled wall height |
| Layout.Repetitions | wallpaper-visualizer/src/components/WallpaperVisualizer.tsx:46-47 | at least 5 tiles are drawn; the count less four is the least number of tiles whose total width reaches the visible width |
| Layout.CenteringOffset | wallpaper-visualizer/src/components/WallpaperVisualizer.tsx:51 | the tile of index 0 at rest leaves equal margins on both sides of the visible width (see also `IndexZeroCentred`) |
| Layout.StageWidth | wallpaper-visualizer/src/components/WallpaperVisualizer.tsx:114 | the stage width is the wall width capped at 1000 (see `VisibleFitsStage` for the fit) |
| Layout.StageHeight | wallpaper-visualizer/src/components/WallpaperVisualizer.tsx:115 | the stage height is the wall height capped at 800 (see `VisibleFitsStage` for the fit) |
| Layout.Tiles | wallpaper-visualizer/src/components/WallpaperVisualizer.tsx:43-71 | the tile list of one render pass, a function of wall, image and offset alone, with at least 5 tiles; its layout is stated by `TileCount`, `TileShape`, `TilesAbut`, `IndexZeroCentred` and `PanShift` |
| Layout.LayoutPass | wallpaper-visualizer/src/components/WallpaperVisualizer.tsx:38-73 | a render pass yields the stored scale and exactly the tile list `Tiles` of wall, image and offset |
| Layout.LayTiles | wallpaper-visualizer/src/components/WallpaperVisualizer.tsx:64-73 | the loop appends, to an emptied layer, one tile per index from -2 up to the count less 2, in order |
| Layout.VisibleFitsStage | wallpaper-visualizer/src/components/WallpaperVisualizer.tsx:114-115 | the visible width w·scale is at most the stage width min(w, 1000), and the tile height h·scale at most the stage height min(h, 800) |
| Layout.TileCount | wallpaper-visualizer/src/components/WallpaperVisualizer.tsx:47-64 | the tile list has at least 5 tiles; its length less four is the least count whose total width reaches the visible width |
| Layout.TileShape | wallpaper-visualizer/src/components/WallpaperVisualizer.tsx:67-70 | every tile has y = 0, the scaled tile width, the scaled wall height, and that height fits the stage |
| Layout.TilesAbut | wallpaper-visualizer/src/components/WallpaperVisualizer.tsx:64-71 | each tile starts exactly where the previous one ends: no gap, no overlap |
| Layout.IndexZeroCentred | wallpaper-visualizer/src/components/WallpaperVisualizer.tsx:51-67 | the tile of index 0 is centred on the visible width, moved by offset·scale |
| Layout.PanShift | wallpaper-visualizer/src/components/WallpaperVisualizer.tsx:67 | changing the offset moves every tile by the scaled difference and changes nothing else |
| Layout.NarrowTilesLeaveLeftGap | wallpaper-visualizer/src/components/WallpaperVisualizer.tsx:51-67 | on an 800 x 600 wall with a 100 x 600 image, 12 tiles are drawn and none starts left of x = 150 |
| Layout.ExampleWithinStage | wallpaper-visualizer/src/components/WallpaperVisualizer.tsx:40-47 | an 800 x 600 wall with a 200 x 100 image: scale 1, tile width 1200, 5 tiles |
| Layout.ExampleBeyondStage | wallpaper-visualizer/src/components/WallpaperVisualizer.tsx:40-42 | a 2000 x 1500 wall is drawn at scale 0.5 |
| Drag.Start | wallpaper-visualizer/src/components/WallpaperVisualizer.tsx:76-79 | mouse-down starts a drag anchored at the pointer and leaves the offset alone |
| Drag.End | wallpaper-visualizer/src/components/WallpaperVisualizer.tsx:110-112 | mouse-up or mouse-leave stops the drag and leaves anchor and offset alone |
| Drag.Move | wallpaper-visualizer/src/components/WallpaperVisualizer.tsx:81-108 | a move changes nothing unless dragging with an image loaded and the proposed offset is within the bound; an accepted move re-anchors at the pointer and keeps offset minus anchor |
| Drag.Step | wallpaper-visualizer/src/components/WallpaperVisualizer.tsx:125-128 | the layer's event bindings: only a mouse-move can change the offset, never out of bounds; afterwards a drag is in progress exactly after a mouse-down or a move during a drag |
| Drag.RunKeepsInBounds | wallpaper-visualizer/src/components/WallpaperVisualizer.tsx:104-107 | under a fixed bound, an in-bounds offset stays in bounds over any event sequence |
| Drag.OffsetInvariant | wallpaper-visualizer/src/components/WallpaperVisualizer.tsx:13-112 | from the state on mount and a non-negative fixed bound, the offset never leaves [-bound, bound] |
| Drag.NoImageNoPan | wallpaper-visualizer/src/components/WallpaperVisualizer.tsx:82 | with no image loaded, no event sequence changes the offset |
| Drag.PanFollowsPointer | wallpaper-visualizer/src/components/WallpaperVisualizer.tsx:84-106 | over events without a mouse-down, offset minus anchor never changes, so the offset tracks the pointer's travel from the anchor |
| Drag.RejectedMoveIsForgotten | wallpaper-visualizer/src/components/WallpaperVisualizer.tsx:104-107 | a rejected move leaves the state unchanged; the next move to x' is accepted exactly when the old offset plus the travel from the old anchor to x' is within the bound, and then lands there |
| Drag.ExampleAcceptedDrag | wallpaper-visualizer/src/components/WallpaperVisualizer.tsx:84-106 | a drag 50 units right with bound 300 pans by 50 and re-anchors |
| Drag.ExampleRejectedDrag | wallpaper-visualizer/src/components/WallpaperVisualizer.tsx:104-107 | a further move past the bound leaves offset and anchor where they were |
| Visualizer.WallpaperVisualizer.constructor | wallpaper-visualizer/src/components/WallpaperVisualizer.tsx:12-19 | on mount: no image, offset 0, scale 1, not dragging, anchor 0, empty layer |
| Visualizer.WallpaperVisualizer.SetWallpaperImage | wallpaper-visualizer/src/components/WallpaperVisualizer.tsx:21-31 | the image state is replaced by the loaded image or cleared; nothing else changes |
| Visualizer.WallpaperVisualizer.RenderWallpaper | wallpaper-visualizer/src/components/WallpaperVisualizer.tsx:33-74 | without an image, layer and scale are untouched; otherwise the scale is stored and the layer becomes `Tiles` of the current inputs, independent of the old tiles (so rendering is idempotent) |
| Visualizer.WallpaperVisualizer.HandleDragStart | wallpaper-visualizer/src/components/WallpaperVisualizer.tsx:76-79 | the drag state becomes `Drag.Start` of the old one; image, scale and layer are untouched |
| Visualizer.WallpaperVisualizer.HandleDragMove | wallpaper-visualizer/src/components/WallpaperVisualizer.tsx:81-108 | the drag state becomes `Drag.Move` of the old one, with one tile width at the stored scale as the bound |
| Visualizer.WallpaperVisualizer.HandleDragEnd | wallpaper-visualizer/src/components/WallpaperVisualizer.tsx:110-112 | the drag state becomes `Drag.End` of the old one |
| Visualizer.WallpaperVisualizer.HandleEvent | wallpaper-visualizer/src/components/WallpaperVisualizer.tsx:123-129 | each layer event runs its handler: the drag state becomes `Drag.Step` of the old one |

## Left out

- Image decoding: creating the browser image and its asynchronous `onload`
  are not modelled.  `SetWallpaperImage` is the state update that follows
  a decode.  An image is only its two positive sides.
- The `layerRef.current` null check of line 34: the layer is always mounted
  by the time the effect runs, so the model always has a layer.
- Konva drawing: cloning the image node, adding it to the layer, the
  Stage and Layer elements.  The layer is modelled as the sequence of tile
  rectangles.
- `console.log` calls are left out.
- React scheduling: the effect that re-renders when image, wall size or
  offset change is not modelled.  Callers run `RenderWallpaper` themselves.
  `setOffsetX` is taken to take effect before the next mouse-move.  Two
  moves between renders would both read the stale offset in the
  component; the model does not capture this.
- Floating point: IEEE rounding, NaN from empty form input and division by
  a zero image height are left out.  Numbers are `real`, and wall and
  image sides are required to be positive.
- Full coverage of the visible width is not claimed, because the code does
  not guarantee it (see `Layout.NarrowTilesLeaveLeftGap`).
- Re-clamping: the offset is not re-clamped when the bound changes.  The
  bound changes when the wall height changes, when `SetWallpaperImage`
  loads an image of a different aspect ratio, and when `RenderWallpaper`
  stores a new scale.  The offset invariant is stated for a fixed bound
  only.
- wallpaper-visualizer/src/App.tsx: form controls, `parseInt` binding and
  the file reader.  These are user interface and I/O, with no computation.
