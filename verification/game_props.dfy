/** Properties of the game screen: what each kind of press does in each
    phase, the strict circle boundary, the target's bounds, and what holds
    over a whole sequence of inputs. */
module GameProps {
  import opened Game

  // ---------------------------------------------------------------------
  // The circle test
  // ---------------------------------------------------------------------

  /** Comparing squares is the same test as comparing distances: if `d` is
      the Euclidean distance of the offset (dx, dy), that is `d` is not
      negative and `d * d == dx * dx + dy * dy`, then `d < r` exactly when
      `dx * dx + dy * dy < r * r`, for every radius `r` that is not negative. */
  lemma DistLessIffSquared(d: real, dx: real, dy: real, r: real)
    requires d >= 0.0 && r >= 0.0
    requires d * d == dx * dx + dy * dy
    ensures d < r <==> dx * dx + dy * dy < r * r
  {
    if d < r {
      SquareLess(d, r);
    } else if r < d {
      SquareLess(r, d);
    }
  }

  /** The product of two positive numbers is positive. */
  lemma MulPos(a: real, b: real)
    requires a > 0.0 && b > 0.0
    ensures a * b > 0.0
  {
  }

  /** Squaring is strictly increasing on the numbers that are not negative. */
  lemma SquareLess(a: real, b: real)
    requires 0.0 <= a < b
    ensures a * a < b * b
  {
    MulPos(b - a, b + a);
    assert (b - a) * (b + a) == b * b - a * a;
  }

  /** `Hit` is the source's circle test: when `d` is the Euclidean distance
      from the press to a placed target's centre, the press hits exactly when
      `d` is below the radius. */
  lemma HitIffDist(x: real, y: real, mx: real, my: real, d: real)
    requires d >= 0.0 && d * d == SqDist(mx, my, x, y)
    ensures Hit(At(x, y), mx, my) <==> d < Radius
  {
    DistLessIffSquared(d, mx - x, my - y, Radius);
  }

  /** A point on the circle's edge, at distance exactly `Radius` from the
      centre, is a miss, and then the hit test changes nothing. */
  lemma EdgeIsMiss(c: Canvas, s: State, o: Oracle, mx: real, my: real)
    requires DrawsOk(c, o)
    requires s.target.At? && SqDist(mx, my, s.target.x, s.target.y) == Radius * Radius
    ensures !Hit(s.target, mx, my)
    ensures CheckHit(c, s, o, mx, my) == s
  {
  }

  /** The hit test moves the target only on a strict hit, and a strict hit
      on a roomy canvas always yields a target inside the inset bounds. */
  lemma CheckHitMovesOnlyOnHit(c: Canvas, s: State, o: Oracle, mx: real, my: real)
    requires DrawsOk(c, o)
    ensures Hit(s.target, mx, my) ==> CheckHit(c, s, o, mx, my) == s.(target := At(o.drawX, o.drawY))
    ensures !Hit(s.target, mx, my) ==> CheckHit(c, s, o, mx, my) == s
    ensures Hit(s.target, mx, my) && Roomy(c) ==> InBounds(c, CheckHit(c, s, o, mx, my).target)
  {
  }

  // ---------------------------------------------------------------------
  // Mouse presses
  // ---------------------------------------------------------------------

  /** Before the game starts, a press anywhere but the start button changes
      nothing: not the flag, not the target, not the screen. */
  lemma PressOffStartButtonChangesNothing(c: Canvas, s: State, o: Oracle, mx: real, my: real)
    requires DrawsOk(c, o)
    requires !s.started && !o.hover(StartButton)
    ensures MousePressed(c, s, o, mx, my) == s
  {
  }

  /** Before the game starts, a press on the start button starts it and
      places the first target at the draws, inside the inset bounds when the
      canvas is roomy; the screen is left alone. */
  lemma PressOnStartButtonStarts(c: Canvas, s: State, o: Oracle, mx: real, my: real)
    requires DrawsOk(c, o)
    requires !s.started && o.hover(StartButton)
    ensures MousePressed(c, s, o, mx, my).started
    ensures MousePressed(c, s, o, mx, my).target == At(o.drawX, o.drawY)
    ensures MousePressed(c, s, o, mx, my).screen == s.screen
    ensures Roomy(c) ==> Inv(c, MousePressed(c, s, o, mx, my))
  {
  }

  /** After the game starts, a press on the end button switches to the
      "lose" screen and nothing else: the target stays where it is even when
      the press is also inside the circle. */
  lemma EndButtonBeatsCircle(c: Canvas, s: State, o: Oracle, mx: real, my: real)
    requires DrawsOk(c, o)
    requires s.started && o.hover(EndButton)
    ensures MousePressed(c, s, o, mx, my) == s.(screen := LoseScreen)
    ensures Hit(s.target, mx, my) ==> MousePressed(c, s, o, mx, my).target == s.target
  {
  }

  /** After the game starts, a press off the end button is exactly the
      circle hit test at the press. */
  lemma PressOffEndButtonIsCheckHit(c: Canvas, s: State, o: Oracle, mx: real, my: real)
    requires DrawsOk(c, o)
    requires s.started && !o.hover(EndButton)
    ensures MousePressed(c, s, o, mx, my) == CheckHit(c, s, o, mx, my)
  {
  }

  // ---------------------------------------------------------------------
  // Key presses
  // ---------------------------------------------------------------------

  /** Before the game starts, Enter starts it wherever the mouse is, with the
      same outcome as pressing the start button (with the same draws). */
  lemma EnterBeforeStartIsStartClick(c: Canvas, s: State, o: Oracle, o': Oracle,
                                     mx: real, my: real, px: real, py: real)
    requires DrawsOk(c, o) && DrawsOk(c, o')
    requires !s.started && o'.hover(StartButton)
    requires o.drawX == o'.drawX && o.drawY == o'.drawY
    ensures KeyPressed(c, s, o, EnterKey, mx, my) == MousePressed(c, s, o', px, py)
  {
  }

  /** After the game starts, Enter is exactly the circle hit test at the
      mouse position; it never switches screens, even with the mouse over the
      end button. */
  lemma EnterAfterStartIsCheckHit(c: Canvas, s: State, o: Oracle, mx: real, my: real)
    requires DrawsOk(c, o)
    requires s.started
    ensures KeyPressed(c, s, o, EnterKey, mx, my) == CheckHit(c, s, o, mx, my)
    ensures KeyPressed(c, s, o, EnterKey, mx, my).screen == s.screen
  {
  }

  /** A key other than Enter changes nothing, before or after the start. */
  lemma OtherKeysChangeNothing(c: Canvas, s: State, o: Oracle, k: int, mx: real, my: real)
    requires DrawsOk(c, o)
    requires k != EnterKey
    ensures KeyPressed(c, s, o, k, mx, my) == s
    ensures Step(c, s, o, KeyPress(k, mx, my)) == s
  {
  }

  // ---------------------------------------------------------------------
  // Sequences of inputs
  // ---------------------------------------------------------------------

  /** Running two traces one after the other is running their
      concatenation. */
  lemma {:induction false} RunAppend(c: Canvas, s: State, a: seq<Input>, b: seq<Input>)
    requires TraceOk(c, a) && TraceOk(c, b)
    ensures TraceOk(c, a + b)
    ensures Run(c, s, a + b) == Run(c, Run(c, s, a), b)
    decreases |a|
  {
    assert TraceOk(c, a + b) by {
      forall i | 0 <= i < |a + b|
        ensures DrawsOk(c, (a + b)[i].oracle)
      {
        if i < |a| {
          assert (a + b)[i] == a[i];
        } else {
          assert (a + b)[i] == b[i - |a|];
        }
      }
    }
    if |a| == 0 {
      assert a + b == b;
    } else {
      var s1 := Step(c, s, a[0].oracle, a[0].event);
      assert (a + b)[0] == a[0];
      assert (a + b)[1..] == a[1..] + b;
      assert TraceOk(c, a[1..]) by {
        forall i | 0 <= i < |a[1..]|
          ensures DrawsOk(c, a[1..][i].oracle)
        {
          assert a[1..][i] == a[i + 1];
        }
      }
      RunAppend(c, s1, a[1..], b);
    }
  }

  /** Once the game has started it stays started: if it has started after
      some prefix of a trace, it has started after the whole trace. */
  lemma StartedStaysStarted(c: Canvas, s: State, trace: seq<Input>, k: nat)
    requires TraceOk(c, trace) && k <= |trace|
    requires Run(c, s, trace[..k]).started
    ensures Run(c, s, trace).started
  {
    var a, b := trace[..k], trace[k..];
    assert a + b == trace;
    assert TraceOk(c, a) by {
      forall i | 0 <= i < |a| ensures DrawsOk(c, a[i].oracle) { assert a[i] == trace[i]; }
    }
    assert TraceOk(c, b) by {
      forall i | 0 <= i < |b| ensures DrawsOk(c, b[i].oracle) { assert b[i] == trace[k + i]; }
    }
    RunAppend(c, s, a, b);
  }

  /** On a roomy canvas, every state reached from the initial one by any
      trace satisfies the screen invariant: once started, the target lies
      inside the canvas inset by the radius. */
  lemma ReachableStatesKeepBounds(c: Canvas, trace: seq<Input>)
    requires Roomy(c) && TraceOk(c, trace)
    ensures Inv(c, Run(c, Initial, trace))
  {
  }

  /** An input that finds nothing to react to in `s`: a mouse press that is
      off the start button before the start, or off the end button and off
      the circle after it; or any key other than Enter. */
  predicate Idle(s: State, i: Input)
  {
    match i.event
    case MousePress(mx, my) =>
      if s.started then !i.oracle.hover(EndButton) && !Hit(s.target, mx, my)
      else !i.oracle.hover(StartButton)
    case KeyPress(k, _, _) => k != EnterKey
  }

  /** Any number of inputs that find nothing to react to leave the state
      exactly as it was. */
  lemma {:induction false} IdleInputsChangeNothing(c: Canvas, s: State, trace: seq<Input>)
    requires TraceOk(c, trace)
    requires forall i :: 0 <= i < |trace| ==> Idle(s, trace[i])
    ensures Run(c, s, trace) == s
    decreases |trace|
  {
    if |trace| > 0 {
      assert Idle(s, trace[0]);
      assert Step(c, s, trace[0].oracle, trace[0].event) == s;
      assert forall i :: 0 <= i < |trace[1..]| ==> trace[1..][i] == trace[i + 1];
      IdleInputsChangeNothing(c, s, trace[1..]);
    }
  }
}
