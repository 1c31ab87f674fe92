/** The client's choice of viewport (client/viewport.c). */
module Viewports {
  import opened CtfServ
  import opened Sprites

  const VPXPIXELS := 224
  const VPYPIXELS := 184

  type Word = w: int | 0 <= w < 0x10000

  /** The screen that a map position is on; the corners are 16-bit numbers. */
  function Screen(mapx: Word, mapy: Word): Viewport {
    var left, top := mapx / VPXPIXELS * VPXPIXELS, mapy / VPYPIXELS * VPYPIXELS;
    Viewport(left, top, (left + VPXPIXELS) % 0x10000, (top + VPYPIXELS) % 0x10000)
  }

  class ClientView {
    var vp: Viewport
    var screenx: nat
    var screeny: nat
    const sprites: SpriteTable

    constructor ()
      ensures fresh(sprites) && sprites.Valid() && sprites.View() == Empty()
    {
      vp, screenx, screeny := Viewport(0, 0, 0, 0), 0, 0;
      sprites := new SpriteTable();
    }

    /** `findViewport`; the viewport is then sent to the server. */
    method FindViewport(mapx: Word, mapy: Word)
      modifies this
      ensures vp == Screen(mapx, mapy) && screenx == mapx / VPXPIXELS && screeny == mapy / VPYPIXELS
    {
      screenx := mapx / VPXPIXELS;
      screeny := mapy / VPYPIXELS;
      vp := vp.(left := screenx * VPXPIXELS);
      vp := vp.(top := screeny * VPYPIXELS);
      vp := vp.(right := (vp.left + VPXPIXELS) % 0x10000);
      vp := vp.(bottom := (vp.top + VPYPIXELS) % 0x10000);
    }

    /** `switchViewport`: the sprites go before the new viewport is chosen. */
    method SwitchViewport(mapx: Word, mapy: Word)
      requires sprites.Valid()
      modifies this, sprites.sprtbl
      ensures vp == Screen(mapx, mapy) && sprites.View() == Empty()
    {
      sprites.RemoveAllSprites();
      FindViewport(mapx, mapy);
    }
  }

  /** The chosen viewport is a full screen around the position, for every position but those
      within one screen of the end of the 16-bit range, where the corner wraps around. */
  lemma ScreenContains(mapx: Word, mapy: Word)
    ensures var v := Screen(mapx, mapy);
            (v.left <= mapx <= v.right && v.top <= mapy <= v.bottom) <==> mapx < 65408 && mapy < 65504
    ensures var v := Screen(mapx, mapy);
            mapx < 65408 && mapy < 65504 ==> v.right - v.left == VPXPIXELS && v.bottom - v.top == VPYPIXELS
  {
  }
}
