/** The game screen of the sketch: before the game starts it shows a start
    button; once started it shows a red target circle, which the player clicks
    to make it respawn elsewhere, and an end button that hands over to the
    "lose" screen.

    The screen's globals become one immutable `State`, and the two input
    handlers become pure functions from a state to the next one. What the
    screen borrows from its host is passed in explicitly: the canvas size
    (`Canvas`), the hover test on buttons and the values `random` returns
    (`Oracle`), and the mouse position and key code (`Event`). */
module Game {

  /** A rectangular button, given by its centre, its width and height, and
      the text drawn on it. */
  datatype Button = Button(x: real, y: real, w: real, h: real, caption: string)

  /** The button that starts the game. */
  const StartButton := Button(400.0, 550.0, 260.0, 90.0, "PRESS HERE")

  /** The button that ends the game and moves to the "lose" screen. */
  const EndButton := Button(400.0, 700.0, 220.0, 70.0, "END GAME")

  /** Radius of the target circle; the screen never changes it. */
  const Radius: real := 40.0

  /** The key code the host reports for the Enter key. */
  const EnterKey: int := 13

  /** The screen name the end button switches to. */
  const LoseScreen: string := "lose"

  /** The centre of the target circle. It is `Unplaced` until the first target
      has been spawned (the source leaves the coordinates undefined). */
  datatype Target = Unplaced | At(x: real, y: real)

  /** Everything the handlers read or write: whether the game has started,
      the target, and the host's current screen name (written, not owned). */
  datatype State = State(started: bool, target: Target, screen: string)

  /** The state when the game screen is first shown. */
  const Initial := State(false, Unplaced, "game")

  /** The size of the drawing surface. */
  datatype Canvas = Canvas(width: real, height: real)

  /** What the host answers during one input event: whether the mouse is over
      a given button, and the two numbers `random` returns if a new target is
      spawned (first for x, then for y). */
  datatype Oracle = Oracle(hover: Button -> bool, drawX: real, drawY: real)

  /** An input event. A key press also carries the mouse position, which
      the Enter key uses as the point to test against the circle. */
  datatype Event =
    | MousePress(mouseX: real, mouseY: real)
    | KeyPress(keyCode: int, mouseX: real, mouseY: real)

  /** `v` is a number `random(lo, hi)` can return: it lies between the two
      bounds, whichever of them is the smaller. */
  predicate InRandomRange(lo: real, hi: real, v: real)
  {
    if lo <= hi then lo <= v <= hi else hi <= v <= lo
  }

  /** The oracle's two draws are values `random` can return for the ranges
      the target is spawned in. */
  predicate DrawsOk(c: Canvas, o: Oracle)
  {
    && InRandomRange(Radius, c.width - Radius, o.drawX)
    && InRandomRange(Radius, c.height - Radius, o.drawY)
  }

  /** The canvas is large enough for a whole circle to fit on each axis. */
  predicate Roomy(c: Canvas)
  {
    c.width >= 2.0 * Radius && c.height >= 2.0 * Radius
  }

  /** The target is placed, and the whole circle lies on the canvas: its
      centre is at least one radius away from every edge. */
  predicate InBounds(c: Canvas, t: Target)
  {
    && t.At?
    && Radius <= t.x <= c.width - Radius
    && Radius <= t.y <= c.height - Radius
  }

  /** The screen invariant: once the game has started there is a target, and
      it lies inside the canvas inset by the radius. */
  predicate Inv(c: Canvas, s: State)
  {
    s.started ==> InBounds(c, s.target)
  }

  /** Spawns a target at the oracle's draws. */
  function NewTarget(c: Canvas, o: Oracle): (t: Target)
    requires DrawsOk(c, o)
    ensures t.At?
    ensures InRandomRange(Radius, c.width - Radius, t.x)
    ensures InRandomRange(Radius, c.height - Radius, t.y)
    ensures Roomy(c) ==> InBounds(c, t)
  {
    At(o.drawX, o.drawY)
  }

  /** Squared distance from the point (mx, my) to the point (x, y). */
  function SqDist(mx: real, my: real, x: real, y: real): real
  {
    (mx - x) * (mx - x) + (my - y) * (my - y)
  }

  /** The point (mx, my) is strictly inside the target circle. The source
      compares the Euclidean distance with the radius; because the radius is
      not negative, comparing squares is the same test (see
      `GameProps.HitIffDist`). A target that was never placed has
      undefined coordinates, so the source's distance is not a number and
      every comparison with it is false: a miss. */
  predicate Hit(t: Target, mx: real, my: real)
  {
    t.At? && SqDist(mx, my, t.x, t.y) < Radius * Radius
  }

  /** The circle hit test: a press strictly inside the circle spawns a new
      target, anything else leaves the state as it was. */
  function CheckHit(c: Canvas, s: State, o: Oracle, mx: real, my: real): (s': State)
    requires DrawsOk(c, o)
    ensures s'.started == s.started && s'.screen == s.screen
    ensures !Hit(s.target, mx, my) ==> s' == s
    ensures s'.target != s.target ==> Hit(s.target, mx, my)
    ensures Hit(s.target, mx, my) ==> s'.target.At?
    ensures Roomy(c) && Inv(c, s) ==> Inv(c, s')
  {
    if Hit(s.target, mx, my) then s.(target := NewTarget(c, o)) else s
  }

  /** The mouse handler. Before the game starts only the start button reacts:
      it starts the game and spawns the first target. After that the end
      button is checked first and switches to the "lose" screen; otherwise
      the press is checked against the circle. */
  function MousePressed(c: Canvas, s: State, o: Oracle, mx: real, my: real): (s': State)
    requires DrawsOk(c, o)
    ensures s.started ==> s'.started
    ensures s'.started != s.started ==> o.hover(StartButton)
    ensures s'.screen != s.screen ==> s.started && o.hover(EndButton) && s'.screen == LoseScreen
    ensures s'.screen != s.screen ==> s'.target == s.target
    ensures Roomy(c) && Inv(c, s) ==> Inv(c, s')
  {
    if !s.started then
      if o.hover(StartButton) then s.(started := true, target := NewTarget(c, o))
      else s
    else if o.hover(EndButton) then
      s.(screen := LoseScreen)
    else
      CheckHit(c, s, o, mx, my)
  }

  /** The key handler. Enter starts the game if it has not started, and
      otherwise tests the mouse position against the circle; every other key
      is ignored. It never changes the screen. */
  function KeyPressed(c: Canvas, s: State, o: Oracle, keyCode: int, mx: real, my: real): (s': State)
    requires DrawsOk(c, o)
    ensures s.started ==> s'.started
    ensures s'.screen == s.screen
    ensures keyCode != EnterKey ==> s' == s
    ensures keyCode == EnterKey ==> s'.started
    ensures Roomy(c) && Inv(c, s) ==> Inv(c, s')
  {
    if !s.started && keyCode == EnterKey then
      s.(started := true, target := NewTarget(c, o))
    else if s.started && keyCode == EnterKey then
      CheckHit(c, s, o, mx, my)
    else
      s
  }

  /** Delivers one event to the handler for its kind. */
  function Step(c: Canvas, s: State, o: Oracle, e: Event): (s': State)
    requires DrawsOk(c, o)
    ensures s.started ==> s'.started
    ensures s'.screen == s.screen || s'.screen == LoseScreen
    ensures s'.screen != s.screen ==> e.MousePress? && s.started && o.hover(EndButton)
    ensures Roomy(c) && Inv(c, s) ==> Inv(c, s')
  {
    match e
    case MousePress(mx, my) => MousePressed(c, s, o, mx, my)
    case KeyPress(k, mx, my) => KeyPressed(c, s, o, k, mx, my)
  }

  /** One event together with the host's answers while it is handled. */
  datatype Input = Input(oracle: Oracle, event: Event)

  /** Every input of the trace supplies draws `random` could return. */
  predicate TraceOk(c: Canvas, trace: seq<Input>)
  {
    forall i :: 0 <= i < |trace| ==> DrawsOk(c, trace[i].oracle)
  }

  /** Handles the inputs of a trace one after the other, starting from `s`. */
  function Run(c: Canvas, s: State, trace: seq<Input>): (s': State)
    requires TraceOk(c, trace)
    ensures s.started ==> s'.started
    ensures s'.screen == s.screen || s'.screen == LoseScreen
    ensures Roomy(c) && Inv(c, s) ==> Inv(c, s')
    decreases |trace|
  {
    if |trace| == 0 then s
    else Run(c, Step(c, s, trace[0].oracle, trace[0].event), trace[1..])
  }
}
