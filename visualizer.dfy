/** The visualizer component as one object: the loaded image and the pan
    offset it keeps as state, the scale the last render left behind, the
    drag flag and anchor, and the tiles on its drawing layer.  The wall's
    width and height are inputs from the parent, passed to each handler. */
module Visualizer {
  import opened Wrappers
  import opened Layout
  import Drag

  class WallpaperVisualizer {
    /** The decoded wallpaper, once its image has loaded. */
    var wallpaperImage: Option<Bitmap>
    /** Pan offset.  The handlers add raw pointer travel to it and compare
        it with the scaled tile width, so it has no single unit. */
    var offsetX: real
    /** Scale stored by the last render that had an image. */
    var scale: real
    var dragging: bool
    var dragStartX: real
    /** The rectangles currently on the layer, in drawing order. */
    var layer: seq<Tile>

    predicate Valid()
      reads this
    {
      0.0 < scale <= 1.0
    }

    /** The part of the state the drag handlers work on. */
    function DragState(): Drag.DragState
      reads this
    {
      Drag.DragState(dragging, dragStartX, offsetX)
    }

    /** The pan bound a mouse-move checks against: one tile width at the
        stored scale, or None when no image is loaded. */
    function PanBound(wallHeight: real): Option<real>
      reads this
      requires Valid() && wallHeight > 0.0
    {
      if wallpaperImage.Some? then Some(TileWidth(wallHeight, wallpaperImage.value, scale)) else None
    }

    /** A freshly mounted component: no image, no pan, scale 1, empty layer. */
    constructor ()
      ensures Valid()
      ensures wallpaperImage == None && scale == 1.0 && layer == []
      ensures DragState() == Drag.Rest
    {
      wallpaperImage := None;
      offsetX := 0.0;
      scale := 1.0;
      dragging := false;
      dragStartX := 0.0;
      layer := [];
    }

    /** The image state is replaced once a new image has loaded, or cleared
        when no wallpaper is selected. */
    method SetWallpaperImage(image: Option<Bitmap>)
      modifies this
      ensures wallpaperImage == image
      ensures offsetX == old(offsetX) && scale == old(scale) && dragging == old(dragging)
      ensures dragStartX == old(dragStartX) && layer == old(layer)
    {
      wallpaperImage := image;
    }

    /** One render pass.  Without an image it returns at once, leaving the
        layer and the stored scale as they were.  Otherwise it stores the
        scale and replaces the layer's tiles by the layout of the current
        inputs; the old tiles play no part, so rendering again with the
        same inputs gives the same tiles. */
    method RenderWallpaper(wallWidth: real, wallHeight: real)
      requires Valid() && wallWidth > 0.0 && wallHeight > 0.0
      modifies this
      ensures Valid()
      ensures wallpaperImage == old(wallpaperImage) && DragState() == old(DragState())
      ensures old(wallpaperImage).None? ==> scale == old(scale) && layer == old(layer)
      ensures old(wallpaperImage).Some? ==>
                && scale == Scale(wallWidth, wallHeight)
                && layer == Tiles(wallWidth, wallHeight, wallpaperImage.value, offsetX)
    {
      if wallpaperImage.None? {
        return;
      }
      scale, layer := LayoutPass(wallWidth, wallHeight, wallpaperImage.value, offsetX);
    }

    method HandleDragStart(clientX: real)
      modifies this
      ensures DragState() == Drag.Start(old(DragState()), clientX)
      ensures wallpaperImage == old(wallpaperImage) && scale == old(scale) && layer == old(layer)
    {
      dragging := true;
      dragStartX := clientX;
    }

    method HandleDragMove(clientX: real, wallHeight: real)
      requires Valid() && wallHeight > 0.0
      modifies this
      ensures Valid()
      ensures DragState() == Drag.Move(old(DragState()), clientX, old(PanBound(wallHeight)))
      ensures wallpaperImage == old(wallpaperImage) && scale == old(scale) && layer == old(layer)
    {
      if !dragging || wallpaperImage.None? {
        return;
      }
      var dragCurrentX := clientX;
      var dragDeltaX := dragCurrentX - dragStartX;
      var newOffsetX := offsetX + dragDeltaX;
      var maxOffsetX := TileWidth(wallHeight, wallpaperImage.value, scale);
      var minOffsetX := -maxOffsetX;
      if newOffsetX >= minOffsetX && newOffsetX <= maxOffsetX {
        offsetX := newOffsetX;
        dragStartX := dragCurrentX;
      }
    }

    method HandleDragEnd()
      modifies this
      ensures DragState() == Drag.End(old(DragState()))
      ensures wallpaperImage == old(wallpaperImage) && scale == old(scale) && layer == old(layer)
    {
      dragging := false;
    }

    /** The layer's bindings: mouse-down starts a drag, mouse-move moves it,
        mouse-up and mouse-leave both end it. */
    method HandleEvent(e: Drag.Event, wallHeight: real)
      requires Valid() && wallHeight > 0.0
      modifies this
      ensures Valid()
      ensures DragState() == Drag.Step(old(DragState()), e, old(PanBound(wallHeight)))
      ensures wallpaperImage == old(wallpaperImage) && scale == old(scale) && layer == old(layer)
    {
      match e
      case MouseDown(x) => HandleDragStart(x);
      case MouseMove(x) => HandleDragMove(x, wallHeight);
      case MouseUp => HandleDragEnd();
      case MouseLeave => HandleDragEnd();
    }
  }
}
