// The sandbox editor's conversions between world and screen coordinates
// (example/code/ui.cpp). The world is the box of `space_width` by `space_height` centred on
// the origin, y up, which the sandbox's orthographic projection shows on the whole window;
// the screen is the window in pixels, y down. The window size is a parameter here.

module Screens {
  import opened Vectors

  /** `screen_to_world`: the pixel's offset from the window centre, y flipped, in world units. */
  function ScreenToWorld(worldSize: Vec2, screenSize: Vec2, screen: Vec2): Vec2
    requires NonZero2(screenSize)
  {
    Mul2(Div2(Sub2(Vec2(screen.x, screenSize.y - screen.y), Scale2(screenSize, 0.5)), screenSize), worldSize)
  }

  /**
   * `world_to_screen` as written: `((world / world_size + (1, 1)) / 2) * screen_size`. It
   * treats the world as spanning twice its size and does not flip y.
   */
  function WorldToScreenAsWritten(worldSize: Vec2, screenSize: Vec2, world: Vec2): Vec2
    requires NonZero2(worldSize)
  {
    Mul2(DivScalar2(Add2(Div2(world, worldSize), Vec2(1.0, 1.0)), 2.0), screenSize)
  }

  /** The inverse `screen_to_world` calls for: the world box onto the window, y flipped. */
  function WorldToScreen(worldSize: Vec2, screenSize: Vec2, world: Vec2): Vec2
    requires NonZero2(worldSize)
  {
    Vec2((world.x / worldSize.x + 0.5) * screenSize.x, (0.5 - world.y / worldSize.y) * screenSize.y)
  }

  /** The window's centre is the world's origin, and its corners are the box's corners. */
  lemma ScreenToWorldFrame(worldSize: Vec2, screenSize: Vec2)
    requires NonZero2(screenSize)
    ensures ScreenToWorld(worldSize, screenSize, Scale2(screenSize, 0.5)) == Vec2(0.0, 0.0)
    ensures ScreenToWorld(worldSize, screenSize, Vec2(0.0, 0.0)) == Vec2(-worldSize.x / 2.0, worldSize.y / 2.0)
    ensures ScreenToWorld(worldSize, screenSize, screenSize) == Vec2(worldSize.x / 2.0, -worldSize.y / 2.0)
  {
  }

  /** As written, the world's origin still lands on the window's centre. */
  lemma OriginToCentreAsWritten(worldSize: Vec2, screenSize: Vec2)
    requires NonZero2(worldSize)
    ensures WorldToScreenAsWritten(worldSize, screenSize, Vec2(0.0, 0.0)) == Scale2(screenSize, 0.5)
  {
  }

  /** One coordinate of the round trip as written: `((w / W + 1) / 2 * S - S / 2) / S * W`. */
  lemma {:induction false} HalvedCoordinate(w: real, world: real, screen: real)
    requires world != 0.0 && screen != 0.0
    ensures ((w / world + 1.0) / 2.0 * screen - screen * 0.5) / screen * world == w / 2.0
    ensures (screen - (w / world + 1.0) / 2.0 * screen - screen * 0.5) / screen * world == -(w / 2.0)
  {
    var a := w / world;
    assert a * world == w;
    assert (a + 1.0) / 2.0 * screen - screen * 0.5 == a / 2.0 * screen;
    assert (a / 2.0 * screen) / screen == a / 2.0;
    assert screen - (a + 1.0) / 2.0 * screen - screen * 0.5 == -(a / 2.0 * screen);
    assert -(a / 2.0 * screen) / screen == -(a / 2.0);
  }

  /**
   * Finding: going to the screen and back with the conversions as written halves x and
   * halves and negates y.
   */
  lemma {:induction false} RoundTripAsWritten(worldSize: Vec2, screenSize: Vec2, world: Vec2)
    requires NonZero2(worldSize) && NonZero2(screenSize)
    ensures ScreenToWorld(worldSize, screenSize, WorldToScreenAsWritten(worldSize, screenSize, world))
      == Vec2(world.x / 2.0, -(world.y / 2.0))
  {
    HalvedCoordinate(world.x, worldSize.x, screenSize.x);
    HalvedCoordinate(world.y, worldSize.y, screenSize.y);
  }

  /**
   * The concrete case: in the sandbox's 16 by 9 world on a 1600 by 900 window, the top-right
   * corner of the world is drawn at (1200, 675), not at the window's top-right (1600, 0).
   */
  lemma CornerAsWritten()
    ensures WorldToScreenAsWritten(Vec2(16.0, 9.0), Vec2(1600.0, 900.0), Vec2(8.0, 4.5)) == Vec2(1200.0, 675.0)
    ensures WorldToScreen(Vec2(16.0, 9.0), Vec2(1600.0, 900.0), Vec2(8.0, 4.5)) == Vec2(1600.0, 0.0)
  {
  }

  /** One coordinate of the corrected round trips. */
  lemma {:induction false} InverseCoordinate(w: real, s: real, world: real, screen: real)
    requires world != 0.0 && screen != 0.0
    ensures ((w / world + 0.5) * screen - screen * 0.5) / screen * world == w
    ensures ((s - screen * 0.5) / screen * world / world + 0.5) * screen == s
  {
    var a := w / world;
    assert a * world == w;
    assert (a + 0.5) * screen - screen * 0.5 == a * screen;
    assert (a * screen) / screen == a;
    var b := (s - screen * 0.5) / screen;
    assert b * world / world == b;
    assert b * screen == s - screen * 0.5;
    assert (b + 0.5) * screen == s;
  }

  /** One flipped coordinate of the corrected round trips. */
  lemma {:induction false} FlippedCoordinate(w: real, s: real, world: real, screen: real)
    requires world != 0.0 && screen != 0.0
    ensures (screen - (0.5 - w / world) * screen - screen * 0.5) / screen * world == w
    ensures (0.5 - (screen - s - screen * 0.5) / screen * world / world) * screen == s
  {
    var a := w / world;
    assert a * world == w;
    assert screen - (0.5 - a) * screen - screen * 0.5 == a * screen;
    assert (a * screen) / screen == a;
    var b := (screen - s - screen * 0.5) / screen;
    assert b * world / world == b;
    assert b * screen == screen - s - screen * 0.5;
    assert (0.5 - b) * screen == s;
  }

  /** The corrected conversion and `screen_to_world` undo each other, both ways round. */
  lemma {:induction false} RoundTrips(worldSize: Vec2, screenSize: Vec2, world: Vec2, screen: Vec2)
    requires NonZero2(worldSize) && NonZero2(screenSize)
    ensures ScreenToWorld(worldSize, screenSize, WorldToScreen(worldSize, screenSize, world)) == world
    ensures WorldToScreen(worldSize, screenSize, ScreenToWorld(worldSize, screenSize, screen)) == screen
  {
    InverseCoordinate(world.x, screen.x, worldSize.x, screenSize.x);
    FlippedCoordinate(world.y, screen.y, worldSize.y, screenSize.y);
  }
}
