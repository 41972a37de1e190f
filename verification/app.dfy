/** Model of the application: the colour-band background, the 8x8 feedback
    block drawn at a touch, and the polling loop that clamps touch coordinates to
    the screen and classifies each read as a touch going down, moving or going up.

    The panel's resolution comes from a header that is not part of this model, so
    every operation takes a `Screen` and is proved for every positive resolution;
    `Lcd` is the 240x320 panel of this board. Draw calls are not performed: each
    operation returns the calls it would make, in order, as `Draw` events. */
module App {
  import opened Unsigned
  import opened TouchCst328

  /** An RGB565 pixel. */
  type Color = uint16

  datatype Screen = Screen(hRes: int, vRes: int) {
    predicate Valid() { hRes > 0 && vRes > 0 }
    predicate OnScreen(x: int, y: int) { 0 <= x < hRes && 0 <= y < vRes }
  }

  const LCD_H_RES: int := 240
  const LCD_V_RES: int := 320
  const Lcd: Screen := Screen(LCD_H_RES, LCD_V_RES)

  /** The background bands, top to bottom: red, green, blue. */
  const BandColors: seq<Color> := [0xF800, 0x07E0, 0x001F]
  /** The colour of the feedback block: black. */
  const DRAW_COLOR: Color := 0x0000
  /** Side of the feedback block and the size of its pixel buffer. */
  const BLOCK_SIDE: int := 8
  const BLOCK_BUF_LEN: int := 64
  /** The loop reports that it is alive once every this many iterations. */
  const ALIVE_PERIOD: int := 50

  /** A panel area, end-exclusive in both directions, as the bitmap call takes it. */
  datatype Rect = Rect(x0: int, y0: int, x1: int, y1: int) {
    predicate Contains(px: int, py: int) { x0 <= px < x1 && y0 <= py < y1 }
  }

  /** One bitmap draw: the area and the pixels the panel reads for it. */
  datatype Draw = Draw(area: Rect, pixels: seq<Color>)

  /** A draw the panel can carry out: a non-empty area inside the screen and
      exactly one pixel per cell of the area. */
  predicate WellFormedDraw(screen: Screen, d: Draw)
  {
    0 <= d.area.x0 < d.area.x1 <= screen.hRes && 0 <= d.area.y0 < d.area.y1 <= screen.vRes &&
    |d.pixels| == (d.area.x1 - d.area.x0) * (d.area.y1 - d.area.y0)
  }

  /** n pixels of colour c. */
  function Fill(n: nat, c: Color): seq<Color>
  {
    seq(n, _ => c)
  }

  function Min(a: int, b: int): int { if a <= b then a else b }
  function Max(a: int, b: int): int { if a >= b then a else b }
  function Dist(a: int, b: int): int { if a >= b then a - b else b - a }

  // ---------------------------------------------------------------------------
  // Background test pattern

  /** First row of a band, as the drawing loop computes it. */
  function BandStart(vRes: int, band: int): int
  {
    (vRes / 3) * band
  }

  /** One past the last row of a band; the last band runs to the bottom edge. */
  function BandEnd(vRes: int, band: int): int
  {
    if band == 2 then vRes else (vRes / 3) * (band + 1)
  }

  /** Reference definition of the band a row belongs to: rows are cut into
      stripes of `vRes / 3`, and whatever is left over goes to the last band. */
  function BandOf(vRes: int, y: int): (b: int)
    requires vRes > 0 && 0 <= y < vRes
    ensures 0 <= b < 3
  {
    if vRes / 3 == 0 then 2 else Min(y / (vRes / 3), 2)
  }

  lemma BandBoundaries(vRes: int)
    requires vRes > 0
    ensures BandStart(vRes, 0) == 0 && BandEnd(vRes, 2) == vRes
    ensures BandEnd(vRes, 0) == BandStart(vRes, 1) && BandEnd(vRes, 1) == BandStart(vRes, 2)
    ensures BandStart(vRes, 0) <= BandEnd(vRes, 0) <= BandEnd(vRes, 1) <= BandEnd(vRes, 2)
  {
    assert BandStart(vRes, 2) == 2 * (vRes / 3);
  }

  /** The three bands cover the rows [0, vRes) contiguously, and every row lies
      in exactly one of them: the one `BandOf` names. */
  lemma {:induction false} BandsPartitionRows(vRes: int, y: int)
    requires vRes > 0 && 0 <= y < vRes
    ensures BandStart(vRes, BandOf(vRes, y)) <= y < BandEnd(vRes, BandOf(vRes, y))
    ensures forall b :: 0 <= b < 3 && BandStart(vRes, b) <= y < BandEnd(vRes, b) ==> b == BandOf(vRes, y)
  {
    var q := vRes / 3;
    BandBoundaries(vRes);
    assert BandStart(vRes, 1) == q && BandStart(vRes, 2) == 2 * q;
    assert BandEnd(vRes, 0) == q && BandEnd(vRes, 1) == 2 * q;
    if q > 0 {
      var b := BandOf(vRes, y);
      if y < q {
        assert y / q == 0;
      } else if y < 2 * q {
        DivModUnique(y, q, 1, y - q);
      } else {
        assert y / q >= 2 by { DivAtLeast(y, q, 2); }
      }
    }
  }

  /** Rows drawn once bands 0 .. band - 1 are done. */
  function RowsBefore(vRes: int, band: int): int
  {
    if band == 0 then 0 else BandEnd(vRes, band - 1)
  }

  /** The draw of background row y. */
  function PatternRow(screen: Screen, y: int): Draw
    requires screen.Valid() && 0 <= y < screen.vRes
  {
    Draw(Rect(0, y, screen.hRes, y + 1), Fill(screen.hRes, BandColors[BandOf(screen.vRes, y)]))
  }

  /** Every background row is a full-width, one-row line inside the screen. */
  lemma PatternRowWellFormed(screen: Screen, y: int)
    requires screen.Valid() && 0 <= y < screen.vRes
    ensures WellFormedDraw(screen, PatternRow(screen, y))
  {
    var d := PatternRow(screen, y);
    assert (d.area.x1 - d.area.x0) * (d.area.y1 - d.area.y0) == screen.hRes;
  }

  /** The inner loop of draw_test_pattern that sets every pixel of the line
      buffer to the band colour. */
  method FillLine(line: array<Color>, c: Color)
    modifies line
    ensures line[..] == Fill(line.Length, c)
  {
    for x := 0 to line.Length
      invariant forall i :: 0 <= i < x ==> line[i] == c
    {
      line[x] := c;
    }
  }

  /** draw_test_pattern: every row of the screen is drawn exactly once, top to
      bottom, as one full-width line in the colour of its band. */
  method DrawTestPattern(screen: Screen) returns (draws: seq<Draw>)
    requires screen.Valid()
    ensures |draws| == screen.vRes
    ensures forall y :: 0 <= y < screen.vRes ==> draws[y] == PatternRow(screen, y)
    ensures forall y :: 0 <= y < screen.vRes ==> WellFormedDraw(screen, draws[y])
  {
    var line := new Color[screen.hRes];
    var colors := BandColors;
    BandBoundaries(screen.vRes);
    draws := [];

    for band := 0 to 3
      invariant |draws| == RowsBefore(screen.vRes, band)
      invariant forall y :: 0 <= y < |draws| ==> draws[y] == PatternRow(screen, y)
    {
      FillLine(line, colors[band]);

      var yStart := (screen.vRes / 3) * band;
      var yEnd := (screen.vRes / 3) * (band + 1);
      if band == 2 {
        yEnd := screen.vRes;
      }
      assert yStart == BandStart(screen.vRes, band) && yEnd == BandEnd(screen.vRes, band);
      assert yStart == RowsBefore(screen.vRes, band);

      for y := yStart to yEnd
        invariant |draws| == y
        invariant line[..] == Fill(screen.hRes, colors[band])
        invariant forall r :: 0 <= r < y ==> draws[r] == PatternRow(screen, r)
      {
        BandsPartitionRows(screen.vRes, y);
        draws := draws + [Draw(Rect(0, y, screen.hRes, y + 1), line[..])];
      }
    }

    forall y | 0 <= y < screen.vRes
      ensures WellFormedDraw(screen, draws[y])
    {
      PatternRowWellFormed(screen, y);
    }
  }

  // ---------------------------------------------------------------------------
  // Feedback block

  /** The 8x8 block centred on (x, y), cut to the screen. */
  function TouchBlock(screen: Screen, x: int, y: int): (b: Rect)
    requires screen.Valid() && screen.OnScreen(x, y)
    ensures 0 <= b.x0 <= x < b.x1 <= screen.hRes && 0 <= b.y0 <= y < b.y1 <= screen.vRes
    ensures 1 <= b.x1 - b.x0 <= BLOCK_SIDE && 1 <= b.y1 - b.y0 <= BLOCK_SIDE
  {
    Rect(Max(x - 4, 0), Max(y - 4, 0), Min(x + 4, screen.hRes), Min(y + 4, screen.vRes))
  }

  /** The clipped block is exactly the part of the square [x-4, x+4) x [y-4, y+4)
      that lies on the screen. */
  lemma TouchBlockIsClippedSquare(screen: Screen, x: int, y: int, px: int, py: int)
    requires screen.Valid() && screen.OnScreen(x, y)
    ensures TouchBlock(screen, x, y).Contains(px, py) <==>
            x - 4 <= px < x + 4 && y - 4 <= py < y + 4 && screen.OnScreen(px, py)
  {}

  lemma BlockFitsBuffer(w: int, h: int)
    requires 1 <= w <= BLOCK_SIDE && 1 <= h <= BLOCK_SIDE
    ensures w * h <= BLOCK_BUF_LEN
  {
    assert w * h <= BLOCK_SIDE * h;
  }

  lemma RowSliceInBounds(w: int, h: int, row: int)
    requires 1 <= w && 0 <= row < h
    ensures 0 <= row * w && row * w + w <= w * h
  {
    assert row * w + w == (row + 1) * w;
    assert (row + 1) * w <= h * w;
  }

  /** The draws of the feedback block: none for a point off the screen, else one
      row of the clipped block per draw, top to bottom. */
  function BlockDraws(screen: Screen, x: int, y: int, color: Color): seq<Draw>
    requires screen.Valid()
  {
    if !screen.OnScreen(x, y) then []
    else
      RowDraws(TouchBlock(screen, x, y), color)
  }

  /** One draw per row of the rectangle, top to bottom, each one row high and
      filled with the colour. */
  function RowDraws(b: Rect, color: Color): seq<Draw>
    requires b.x0 <= b.x1 && b.y0 <= b.y1
  {
    seq(b.y1 - b.y0, r => Draw(Rect(b.x0, b.y0 + r, b.x1, b.y0 + r + 1), Fill(b.x1 - b.x0, color)))
  }

  /** Some draw of the list paints pixel (px, py). */
  predicate Paints(draws: seq<Draw>, px: int, py: int)
  {
    exists k :: 0 <= k < |draws| && draws[k].area.Contains(px, py)
  }

  /** The feedback block paints exactly the on-screen pixels of the 8x8 square
      around an on-screen point, nothing for an off-screen point, and every draw
      is inside the screen, one row high, and all in the block colour. */
  lemma {:induction false} BlockDrawsPaintClippedSquare(screen: Screen, x: int, y: int, color: Color, px: int, py: int)
    requires screen.Valid()
    ensures Paints(BlockDraws(screen, x, y, color), px, py) <==>
            screen.OnScreen(x, y) && x - 4 <= px < x + 4 && y - 4 <= py < y + 4 && screen.OnScreen(px, py)
  {
    var draws := BlockDraws(screen, x, y, color);
    if screen.OnScreen(x, y) {
      var b := TouchBlock(screen, x, y);
      TouchBlockIsClippedSquare(screen, x, y, px, py);
      if b.Contains(px, py) {
        assert draws[py - b.y0].area.Contains(px, py);
      }
      if Paints(draws, px, py) {
        var k :| 0 <= k < |draws| && draws[k].area.Contains(px, py);
        assert b.Contains(px, py);
      }
    }
  }

  lemma {:induction false} BlockDrawsWellFormed(screen: Screen, x: int, y: int, color: Color)
    requires screen.Valid()
    ensures |BlockDraws(screen, x, y, color)| <= BLOCK_SIDE
    ensures forall d :: d in BlockDraws(screen, x, y, color) ==>
              WellFormedDraw(screen, d) && d.area.y1 == d.area.y0 + 1 &&
              forall i :: 0 <= i < |d.pixels| ==> d.pixels[i] == color
  {
    var draws := BlockDraws(screen, x, y, color);
    if screen.OnScreen(x, y) {
      var b := TouchBlock(screen, x, y);
      var w := b.x1 - b.x0;
      forall d | d in draws
        ensures WellFormedDraw(screen, d) && d.area.y1 == d.area.y0 + 1
        ensures forall i :: 0 <= i < |d.pixels| ==> d.pixels[i] == color
      {
        var k :| 0 <= k < |draws| && draws[k] == d;
        assert d == Draw(Rect(b.x0, b.y0 + k, b.x1, b.y0 + k + 1), Fill(w, color));
        assert (d.area.x1 - d.area.x0) * (d.area.y1 - d.area.y0) == w;
      }
    }
  }

  /** draw_touch_block: clip, fill the 64-entry buffer with the colour, and draw
      the block one row slice of the buffer at a time. */
  method DrawTouchBlock(screen: Screen, x: int, y: int, color: Color) returns (draws: seq<Draw>)
    requires screen.Valid()
    ensures draws == BlockDraws(screen, x, y, color)
  {
    draws := [];
    if x < 0 || x >= screen.hRes || y < 0 || y >= screen.vRes {
      return;
    }

    var x0 := x - 4;
    var y0 := y - 4;
    var x1 := x0 + 8;
    var y1 := y0 + 8;

    if x0 < 0 { x0 := 0; }
    if y0 < 0 { y0 := 0; }
    if x1 > screen.hRes { x1 := screen.hRes; }
    if y1 > screen.vRes { y1 := screen.vRes; }
    assert Rect(x0, y0, x1, y1) == TouchBlock(screen, x, y);

    var w := x1 - x0;
    var h := y1 - y0;
    if w <= 0 || h <= 0 {
      return;
    }

    draws := DrawBlockRows(x0, y0, w, h, color);
  }

  /** The second half of draw_touch_block: fill the first w * h entries of the
      buffer with the colour, then draw row `row` of the block from the slice
      [row * w, row * w + w) of the buffer. */
  method DrawBlockRows(x0: int, y0: int, w: int, h: int, color: Color) returns (draws: seq<Draw>)
    requires 1 <= w <= BLOCK_SIDE && 1 <= h <= BLOCK_SIDE
    ensures draws == RowDraws(Rect(x0, y0, x0 + w, y0 + h), color)
  {
    var buf := new Color[BLOCK_BUF_LEN];
    BlockFitsBuffer(w, h);
    for i := 0 to w * h
      invariant forall k :: 0 <= k < i ==> buf[k] == color
    {
      buf[i] := color;
    }

    draws := [];
    for row := 0 to h
      invariant |draws| == row
      invariant forall k :: 0 <= k < w * h ==> buf[k] == color
      invariant forall r :: 0 <= r < row ==>
                  draws[r] == Draw(Rect(x0, y0 + r, x0 + w, y0 + r + 1), Fill(w, color))
    {
      var offset := row * w;
      RowSliceInBounds(w, h, row);
      assert buf[offset .. offset + w] == Fill(w, color);
      draws := draws + [Draw(Rect(x0, y0 + row, x0 + w, y0 + row + 1), buf[offset .. offset + w])];
    }
  }

  /** On this board's 240x320 panel the bands are rows [0, 106), [106, 212) and
      [212, 320), and the blocks at the two far corners are cut to 4x4 and 5x5. */
  lemma LcdLayout()
    ensures Lcd.Valid()
    ensures BandStart(LCD_V_RES, 1) == 106 && BandStart(LCD_V_RES, 2) == 212 && BandEnd(LCD_V_RES, 2) == 320
    ensures BandOf(LCD_V_RES, 105) == 0 && BandOf(LCD_V_RES, 106) == 1 && BandOf(LCD_V_RES, 319) == 2
    ensures TouchBlock(Lcd, 0, 0) == Rect(0, 0, 4, 4)
    ensures TouchBlock(Lcd, 239, 319) == Rect(235, 315, 240, 320)
  {
    BandsPartitionRows(LCD_V_RES, 105);
    BandsPartitionRows(LCD_V_RES, 106);
    BandsPartitionRows(LCD_V_RES, 319);
  }

  // ---------------------------------------------------------------------------
  // Polling loop

  /** The outcome of one point read as the loop sees it. */
  datatype ReadResult = ReadOk(pt: TouchPoint) | ReadErr(err: int)

  /** What one loop iteration reports about the finger. */
  datatype TouchEvent = Down(x: int, y: int) | Move(x: int, y: int) | Up | NoEvent

  /** The read result a bus reply leads to, through the driver's point read. */
  function Outcome(reply: BusReply): ReadResult
    requires reply.Received? ==> |reply.data| == REPORT_LEN
  {
    match reply
    case Received(data) => ReadOk(Decode(data))
    case Failed(e) => ReadErr(e)
  }

  /** Clamp a coordinate into [0, hi): the nearest on-screen value. */
  function Clamp(v: int, hi: int): (r: int)
    requires hi > 0
    ensures 0 <= r < hi
    ensures 0 <= v < hi ==> r == v
    ensures forall z :: 0 <= z < hi ==> Dist(r, v) <= Dist(z, v)
  {
    if v < 0 then 0 else if v >= hi then hi - 1 else v
  }

  /** One loop iteration on the press state: the state it leaves and the event
      it reports. A failed read changes nothing. */
  function Poll(screen: Screen, last: bool, read: ReadResult): (bool, TouchEvent)
    requires screen.Valid()
  {
    match read
    case ReadErr(_) => (last, NoEvent)
    case ReadOk(pt) =>
      if pt.pressed then
        var x := Clamp(pt.x as int, screen.hRes);
        var y := Clamp(pt.y as int, screen.vRes);
        (true, if last then Move(x, y) else Down(x, y))
      else
        (false, if last then Up else NoEvent)
  }

  /** The press-state machine: DOWN on a press after a release, MOVE on a press
      after a press, UP on a release after a press, nothing on a release after a
      release, and after every successful read the state is the point's `pressed`. */
  lemma PollClassifies(screen: Screen, last: bool, pt: TouchPoint)
    requires screen.Valid()
    ensures Poll(screen, last, ReadOk(pt)).0 == pt.pressed
    ensures Poll(screen, last, ReadOk(pt)).1.Down? <==> pt.pressed && !last
    ensures Poll(screen, last, ReadOk(pt)).1.Move? <==> pt.pressed && last
    ensures Poll(screen, last, ReadOk(pt)).1.Up? <==> !pt.pressed && last
    ensures Poll(screen, last, ReadOk(pt)).1.NoEvent? <==> !pt.pressed && !last
  {}

  /** A DOWN or MOVE reports the raw coordinates clamped to the screen. */
  lemma PollPositionOnScreen(screen: Screen, last: bool, pt: TouchPoint)
    requires screen.Valid() && pt.pressed
    ensures var ev := Poll(screen, last, ReadOk(pt)).1;
      (ev.Down? || ev.Move?) && ev.x == Clamp(pt.x as int, screen.hRes) && ev.y == Clamp(pt.y as int, screen.vRes) &&
      screen.OnScreen(ev.x, ev.y)
  {}

  /** A failed read is never taken for a release. */
  lemma PollErrorKeepsState(screen: Screen, last: bool, err: int)
    requires screen.Valid()
    ensures Poll(screen, last, ReadErr(err)) == (last, NoEvent)
  {}

  /** The draws one iteration makes for the event it reports. */
  function EventDraws(screen: Screen, ev: TouchEvent): seq<Draw>
    requires screen.Valid()
  {
    match ev
    case Down(x, y) => BlockDraws(screen, x, y, DRAW_COLOR)
    case Move(x, y) => BlockDraws(screen, x, y, DRAW_COLOR)
    case _ => []
  }

  /** Events of successive iterations, with the state left after the last one. */
  function Run(screen: Screen, last: bool, results: seq<ReadResult>): (bool, seq<TouchEvent>)
    requires screen.Valid()
    decreases |results|
  {
    if results == [] then (last, [])
    else
      var step := Poll(screen, last, results[0]);
      var rest := Run(screen, step.0, results[1..]);
      (rest.0, [step.1] + rest.1)
  }

  /** Run unfolded once. */
  lemma RunFirst(screen: Screen, last: bool, results: seq<ReadResult>)
    requires screen.Valid() && results != []
    ensures Run(screen, last, results).0 == Run(screen, Poll(screen, last, results[0]).0, results[1..]).0
    ensures Run(screen, last, results).1 ==
            [Poll(screen, last, results[0]).1] + Run(screen, Poll(screen, last, results[0]).0, results[1..]).1
  {}

  /** The reads that succeeded, in order. */
  function Successes(results: seq<ReadResult>): seq<ReadResult>
    decreases |results|
  {
    if results == [] then []
    else if results[0].ReadOk? then [results[0]] + Successes(results[1..])
    else Successes(results[1..])
  }

  /** The events that report something. */
  function Reported(evs: seq<TouchEvent>): seq<TouchEvent>
    decreases |evs|
  {
    if evs == [] then []
    else if evs[0].NoEvent? then Reported(evs[1..])
    else [evs[0]] + Reported(evs[1..])
  }

  /** Failed results are invisible: dropping them changes neither the reported
      events nor the final press state. */
  lemma {:induction false} FailedReadsInvisible(screen: Screen, last: bool, results: seq<ReadResult>)
    requires screen.Valid()
    ensures Run(screen, last, Successes(results)).0 == Run(screen, last, results).0
    ensures Reported(Run(screen, last, Successes(results)).1) == Reported(Run(screen, last, results).1)
    decreases |results|
  {
    if results != [] {
      var step := Poll(screen, last, results[0]);
      FailedReadsInvisible(screen, step.0, results[1..]);
      if results[0].ReadOk? {
        assert Successes(results) == [results[0]] + Successes(results[1..]);
        assert Successes(results)[1..] == Successes(results[1..]);
      } else {
        assert step == (last, NoEvent);
        assert Successes(results) == Successes(results[1..]);
      }
    }
  }

  /** Whether a touch is on after the events, starting from `touching`: DOWN and
      MOVE leave it on, UP leaves it off, and no event leaves it as it was. */
  function TouchingAfter(touching: bool, evs: seq<TouchEvent>): bool
    decreases |evs|
  {
    if evs == [] then touching
    else match evs[0]
      case Down(_, _) => TouchingAfter(true, evs[1..])
      case Move(_, _) => TouchingAfter(true, evs[1..])
      case Up => TouchingAfter(false, evs[1..])
      case NoEvent => TouchingAfter(touching, evs[1..])
  }

  /** The events follow the touch protocol: no DOWN while a touch is on, no MOVE
      or UP while none is. `touching` is whether a touch is on before the first
      event. Each touch is then DOWN, some MOVEs and UP, except that the last one
      may still be on at the end, which is what `TouchingAfter` tells. */
  predicate Bracketed(touching: bool, evs: seq<TouchEvent>)
    decreases |evs|
  {
    if evs == [] then true
    else match evs[0]
      case Down(_, _) => !touching && Bracketed(true, evs[1..])
      case Move(_, _) => touching && Bracketed(true, evs[1..])
      case Up => touching && Bracketed(false, evs[1..])
      case NoEvent => Bracketed(touching, evs[1..])
  }

  /** Over any run the reported events follow the touch protocol, and a touch is
      left open at the end exactly when the loop ends in the pressed state: a run
      that ends released has closed every touch it opened with an UP. */
  lemma {:induction false} RunIsBracketed(screen: Screen, last: bool, results: seq<ReadResult>)
    requires screen.Valid()
    ensures Bracketed(last, Run(screen, last, results).1)
    ensures TouchingAfter(last, Run(screen, last, results).1) == Run(screen, last, results).0
    decreases |results|
  {
    if results != [] {
      var step := Poll(screen, last, results[0]);
      RunIsBracketed(screen, step.0, results[1..]);
      var evs := Run(screen, last, results).1;
      assert evs[1..] == Run(screen, step.0, results[1..]).1;
      assert evs[0] == step.1;
      assert step.1.NoEvent? ==> step.0 == last;
    }
  }

  /** The state kept across iterations of the polling loop. */
  class TouchApp {
    const screen: Screen
    var lastPressed: bool
    var loopCnt: int

    ghost predicate Valid()
      reads this
    {
      screen.Valid() && loopCnt >= 0
    }

    constructor (screen: Screen)
      requires screen.Valid()
      ensures Valid() && this.screen == screen
      ensures !lastPressed && loopCnt == 0
    {
      this.screen := screen;
      lastPressed := false;
      loopCnt := 0;
    }

    /** One iteration of the loop in app_main: read a point through the driver,
        clamp it, classify it against the previous state and draw the block. */
    method Step(driver: Driver, reply: BusReply) returns (alive: bool, event: TouchEvent, draws: seq<Draw>)
      requires Valid()
      requires reply.Received? ==> |reply.data| == REPORT_LEN
      modifies this
      ensures Valid()
      ensures loopCnt == old(loopCnt) + 1 && alive == (old(loopCnt) % ALIVE_PERIOD == 0)
      ensures (lastPressed, event) == Poll(screen, old(lastPressed), Outcome(reply))
      ensures draws == EventDraws(screen, event)
    {
      alive := loopCnt % ALIVE_PERIOD == 0;
      loopCnt := loopCnt + 1;

      ghost var expected := Poll(screen, lastPressed, Outcome(reply));
      var pt := new PointStruct(TouchPoint(0, 0, 0, false));
      var err, _ := driver.ReadPoint(pt, reply);
      var p := pt.Value();
      event, draws := NoEvent, [];
      assert err == ESP_OK <==> reply.Received?;
      assert err == ESP_OK ==> expected == Poll(screen, lastPressed, ReadOk(p));

      if err == ESP_OK {
        if p.pressed {
          var x := p.x as int;
          var y := p.y as int;

          if x < 0 { x := 0; }
          if x >= screen.hRes { x := screen.hRes - 1; }
          assert x == Clamp(p.x as int, screen.hRes);
          if y < 0 { y := 0; }
          if y >= screen.vRes { y := screen.vRes - 1; }
          assert y == Clamp(p.y as int, screen.vRes);

          if !lastPressed {
            event := Down(x, y);
          } else {
            event := Move(x, y);
          }
          assert event == expected.1;

          draws := DrawTouchBlock(screen, x, y, DRAW_COLOR);
          assert draws == EventDraws(screen, event);
          lastPressed := true;
        } else {
          if lastPressed {
            event := Up;
          }
          lastPressed := false;
          assert (lastPressed, event) == expected;
        }
      }
    }
  }

  /** The read results a run of bus replies leads to. */
  function Outcomes(replies: seq<BusReply>): seq<ReadResult>
    requires forall i :: 0 <= i < |replies| ==> (replies[i].Received? ==> |replies[i].data| == REPORT_LEN)
  {
    seq(|replies|, i requires 0 <= i < |replies| => Outcome(replies[i]))
  }

  /** The first `|replies|` iterations of the polling loop, one bus reply each. */
  method PollLoop(app: TouchApp, driver: Driver, replies: seq<BusReply>) returns (events: seq<TouchEvent>)
    requires app.Valid()
    requires forall i :: 0 <= i < |replies| ==> (replies[i].Received? ==> |replies[i].data| == REPORT_LEN)
    modifies app
    ensures app.Valid()
    ensures app.loopCnt == old(app.loopCnt) + |replies|
    ensures app.lastPressed == Run(app.screen, old(app.lastPressed), Outcomes(replies)).0
    ensures events == Run(app.screen, old(app.lastPressed), Outcomes(replies)).1
  {
    ghost var results := Outcomes(replies);
    ghost var start := app.lastPressed;
    events := [];
    assert results[0..] == results;
    for i := 0 to |replies|
      invariant app.Valid()
      invariant app.loopCnt == old(app.loopCnt) + i
      invariant Run(app.screen, start, results).0 == Run(app.screen, app.lastPressed, results[i..]).0
      invariant Run(app.screen, start, results).1 == events + Run(app.screen, app.lastPressed, results[i..]).1
    {
      ghost var before := app.lastPressed;
      var _, ev, _ := app.Step(driver, replies[i]);
      RunFirst(app.screen, before, results[i..]);
      assert results[i..][0] == results[i] == Outcome(replies[i]);
      assert results[i..][1..] == results[i + 1..];
      ghost var later := Run(app.screen, app.lastPressed, results[i + 1..]).1;
      assert events + ([ev] + later) == (events + [ev]) + later;
      events := events + [ev];
    }
    assert results[|replies|..] == [];
  }

  /** app_main up to its loop: draw the background, then bring up the touch
      controller with the configured pins. */
  method AppMain(screen: Screen, port: int, sda: int, scl: int, rst: int, irq: int, clkHz: nat)
    returns (app: TouchApp, driver: Driver, background: seq<Draw>, initActions: seq<InitAction>)
    requires screen.Valid()
    ensures fresh(app) && fresh(driver) && app.Valid() && app.screen == screen
    ensures !app.lastPressed && app.loopCnt == 0
    ensures |background| == screen.vRes
    ensures forall y :: 0 <= y < screen.vRes ==> background[y] == PatternRow(screen, y)
    ensures driver.i2cPort == port && driver.rstGpio == rst && driver.irqGpio == irq
    ensures initActions == InitSequence(port, sda, scl, rst, irq, clkHz)
  {
    background := DrawTestPattern(screen);
    driver := new Driver();
    var err;
    err, initActions := driver.Init(port, sda, scl, rst, irq, clkHz);
    app := new TouchApp(screen);
  }
}
