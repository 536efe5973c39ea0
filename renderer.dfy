/** core/src/renderer.c: the software framebuffer the game draws into, and
    the letterbox rectangle the finished frame is scaled into. */
module Renderer {
  import opened MapData

  /** raylib's `Rectangle`. */
  datatype Rectangle = Rectangle(x: real, y: real, width: real, height: real)

  /** `dnf_framebuffer`: `width * height` pixels, row after row. */
  class Framebuffer {
    var width: int
    var height: int
    var pixels: array<Color>

    ghost predicate Valid()
      reads this
    {
      0 <= width && 0 <= height && pixels.Length == width * height
    }

    constructor ()
      ensures Valid() && width == 0 && height == 0
    {
      width, height := 0, 0;
      pixels := new Color[0];
    }
  }

  /** The scale factor `fminf(window_width / target.width, window_height / target.height)`:
      the largest factor at which the target still fits both ways. */
  function FitScale(windowWidth: int, windowHeight: int, targetWidth: int, targetHeight: int): (s: real)
    requires targetWidth > 0 && targetHeight > 0
    ensures s <= windowWidth as real / targetWidth as real
    ensures s <= windowHeight as real / targetHeight as real
    ensures s == windowWidth as real / targetWidth as real || s == windowHeight as real / targetHeight as real
  {
    var sx := windowWidth as real / targetWidth as real;
    var sy := windowHeight as real / targetHeight as real;
    if sx < sy then sx else sy
  }

  /** The rectangle `renderer_resize_window` stores: the target scaled by
      `FitScale` and centred in the window. */
  function Letterbox(windowWidth: int, windowHeight: int, targetWidth: int, targetHeight: int): (r: Rectangle)
    requires targetWidth > 0 && targetHeight > 0
    // it fits the window, and touches it on at least one axis
    ensures r.width <= windowWidth as real && r.height <= windowHeight as real
    ensures r.width == windowWidth as real || r.height == windowHeight as real
    // the aspect ratio of the target is kept
    ensures r.width * targetHeight as real == r.height * targetWidth as real
    // it is centred, so the margins are equal and never negative
    ensures r.x >= 0.0 && r.y >= 0.0
    ensures r.x + r.width + r.x == windowWidth as real
    ensures r.y + r.height + r.y == windowHeight as real
  {
    var s := FitScale(windowWidth, windowHeight, targetWidth, targetHeight);
    var w := targetWidth as real * s;
    var h := targetHeight as real * s;
    Rectangle((windowWidth as real - w) / 2.0, (windowHeight as real - h) / 2.0, w, h)
  }

  /** `renderer_context`: the framebuffer, the size of the texture it is
      uploaded to, and the on-screen rectangle that texture is drawn into. */
  class RendererContext {
    const framebuffer: Framebuffer
    var targetWidth: int
    var targetHeight: int
    var screenRect: Rectangle

    constructor (framebuffer: Framebuffer)
      ensures this.framebuffer == framebuffer
    {
      this.framebuffer := framebuffer;
      targetWidth, targetHeight := 0, 0;
      screenRect := Rectangle(0.0, 0.0, 0.0, 0.0);
    }

    /** `renderer_init`: the framebuffer gets the requested size and a fresh
        pixel array filled with BLACK (`GenImageColor`), and the target
        texture is made from that image, so it has the same size. */
    method Init(outWidth: int, outHeight: int) returns (ok: bool)
      requires 0 <= outWidth && 0 <= outHeight
      modifies this, framebuffer
      ensures ok
      ensures framebuffer.Valid() && fresh(framebuffer.pixels)
      ensures framebuffer.width == outWidth && framebuffer.height == outHeight
      ensures forall i :: 0 <= i < framebuffer.pixels.Length ==> framebuffer.pixels[i] == BLACK
      ensures targetWidth == outWidth && targetHeight == outHeight
      ensures screenRect == old(screenRect)
    {
      framebuffer.width := outWidth;
      framebuffer.height := outHeight;
      framebuffer.pixels := new Color[outWidth * outHeight](_ => BLACK);
      targetWidth := outWidth;
      targetHeight := outHeight;
      ok := true;
    }

    /** `renderer_resize_window`: the four fields of the screen rectangle are
        assigned one after another. */
    method ResizeWindow(windowWidth: int, windowHeight: int)
      requires targetWidth > 0 && targetHeight > 0
      modifies this`screenRect
      ensures screenRect == Letterbox(windowWidth, windowHeight, targetWidth, targetHeight)
    {
      var scale := FitScale(windowWidth, windowHeight, targetWidth, targetHeight);
      screenRect := screenRect.(width := targetWidth as real * scale);
      screenRect := screenRect.(height := targetHeight as real * scale);
      screenRect := screenRect.(x := (windowWidth as real - screenRect.width) / 2.0);
      screenRect := screenRect.(y := (windowHeight as real - screenRect.height) / 2.0);
    }
  }
}
