# Game screen state machine

A Dafny model of the game screen of a small p5.js sketch (`game.js`). Before the
game starts the screen shows a start button. Pressing it, or pressing Enter,
starts the game and spawns a target circle of radius 40 at a random position.
After that, a press strictly inside the circle respawns it elsewhere, and a
press on the "END GAME" button switches the host's current screen to `"lose"`.

The screen's globals (`gameStarted`, the target centre `x`, `y`, and the
`currentScreen` it writes) become one immutable `Game.State`. The two input
handlers become pure functions: `Game.MousePressed` and `Game.KeyPressed`,
joined by `Game.Step` and folded over a trace of inputs by `Game.Run`.
Whatever the screen takes from its host is a parameter:

- the canvas size is a `Game.Canvas`;
- the hover test `isHover` is the field `hover: Button -> bool` of a
  `Game.Oracle`, left uninterpreted;
- the two values `random(r, width - r)` and `random(r, height - r)` would return
  are the oracle's `drawX` and `drawY`. `Game.DrawsOk` requires each to lie
  between its two bounds, in either order, because `random` accepts its bounds
  in either order;
- the mouse position and the key code are carried by a `Game.Event`. A key
  press carries the mouse position too, because Enter tests it against the
  circle.

Coordinates are `real`. The source's test `dist(mx, my, x, y) < r` becomes
`Game.Hit`, which compares squared distances. `GameProps.DistLessIffSquared`
proves the two comparisons agree for every radius that is not negative, and
`GameProps.HitIffDist` applies that to `Game.Hit` itself. Before the
first spawn the source leaves `x` and `y` undefined, so the model has the
target `Unplaced`. A hit test against it is a miss: a distance to an undefined
coordinate is not a number, and `NaN < r` is false. `Game.Inv` is the screen
invariant: once started, the target is placed and lies inside the canvas inset
by the radius. It is preserved whenever the canvas is at least `2r` wide and
`2r` high (`Game.Roomy`).

After the start, Enter only runs the circle test at the mouse position. It never
acts as a press on the end button (see `GameProps.EnterAfterStartIsCheckHit`).

Files: `game.dfy` (module `Game`: data and handlers) and `game_props.dfy`
(module `GameProps`: properties of the handlers and of traces).

## Model

| member | source | states |
|---|---|---|
| Game.NewTarget | game.js:161-164 | the new target is placed, each coordinate lies within its `random` range, and on a canvas at least 2r by 2r the whole circle is on the canvas |
| Game.CheckHit | game.js:153-159 | the hit test never touches the started flag or the screen; a miss leaves the state unchanged; the target moves only on a strict hit; the bounds invariant is preserved |
| Game.MousePressed | game.js:113-130 | a started game stays started; only a press on the start button starts the game; only a press on the end button after the start changes the screen, always to "lose", and then the target does not move; the bounds invariant is preserved |
| Game.KeyPressed | game.js:136-146 | a key press never changes the screen; any key but Enter changes nothing; after Enter the game is started; the started flag never goes back to false; the bounds invariant is preserved |
| Game.Step | game.js:113-146 | one event never un-starts the game; the screen changes only to "lose", and only on a mouse press over the end button after the start; the bounds invariant is preserved |
| Game.Run | game.js:113-146 | over any sequence of inputs, a started game stays started, the screen ends either unchanged or "lose", and the bounds invariant holds at the end if it held at the start |
| GameProps.DistLessIffSquared | game.js:155-156 | for a radius that is not negative, `dist < r` is the same test as `dx*dx + dy*dy < r*r` |
| GameProps.HitIffDist | game.js:155-156 | when `d` is the Euclidean distance from the press to a placed target's centre, `Game.Hit` holds exactly when `d < r`, the source's `dist(...) < r` test |
| GameProps.EdgeIsMiss | game.js:155-158 | a press at distance exactly r from the centre is a miss, and the hit test then changes nothing |
| GameProps.CheckHitMovesOnlyOnHit | game.js:153-164 | on a strict hit the target moves to the draws, inside the inset bounds on a roomy canvas; on a miss the state is unchanged |
| GameProps.PressOffStartButtonChangesNothing | game.js:115-121 | before the start, a press off the start button leaves the flag, the target and the screen as they were |
| GameProps.PressOnStartButtonStarts | game.js:115-119 | before the start, a press on the start button starts the game, places the target at the draws, leaves the screen alone, and establishes the bounds invariant on a roomy canvas |
| GameProps.EndButtonBeatsCircle | game.js:123-126 | after the start, a press on the end button only switches to "lose", and the target stays put even when the press is inside the circle |
| GameProps.PressOffEndButtonIsCheckHit | game.js:123-129 | after the start, a press off the end button is exactly the circle hit test at the press |
| GameProps.EnterBeforeStartIsStartClick | game.js:137-141 | before the start, Enter anywhere has the same outcome as a press on the start button with the same draws |
| GameProps.EnterAfterStartIsCheckHit | game.js:143-145 | after the start, Enter is exactly the hit test at the mouse position and never changes the screen, even over the end button |
| GameProps.OtherKeysChangeNothing | game.js:136-146 | a key other than Enter changes nothing, before or after the start |
| GameProps.RunAppend | game.js:113-146 | handling two traces one after the other is handling their concatenation |
| GameProps.StartedStaysStarted | game.js:113-146 | if the game has started after some prefix of a trace, it has started after the whole trace |
| GameProps.ReachableStatesKeepBounds | game.js:31-33 | on a roomy canvas, every state reached from the initial one keeps the target inside the canvas inset by the radius once started |
| GameProps.IdleInputsChangeNothing | game.js:113-146 | any number of presses that miss every interactive region, and keys other than Enter, leave the state exactly as it was |

## Left out

- `drawGame` and `drawGameButton` (game.js:40-106): rendering only (background, text, colours, the rounded button, the hover cursor).
- The body of `isHover`: it is defined in `main.js`, which is not part of this model. It stays an uninterpreted `Button -> bool`, so nothing assumes it is a rectangle test.
- p5's `random`: the model takes its results as caller-supplied values between the bounds. It does not model their distribution, and it allows the upper bound itself, so it admits a superset of p5's values.
- p5's `dist` and floating-point arithmetic: coordinates are exact reals, and the distance test compares squares (no square root, no rounding).
- The key code of Enter is taken to be 13, the value the host reports for that key.
- The host run-loop, `setup`/`draw` and the screen dispatch in `main.js`: `Game.Run` applies the handlers to every input of a trace. It does not model the host ceasing to route inputs to this screen once the screen is `"lose"`.
- The `"lose"` screen and any reset of `gameStarted` on re-entering the screen: neither is in `game.js`.
- A canvas smaller than 2r on either axis: the handlers are modelled for every canvas, but the bounds invariant is only claimed on a roomy one. On a smaller canvas `random` swaps its bounds, and the circle cannot lie wholly on the canvas.
- The canvas size is taken as fixed over a trace: `Game.Run` and `GameProps.ReachableStatesKeepBounds` use one `Game.Canvas` for every input, whereas `newTarget` reads the host's current width and height each time, so after a resize an already placed target could lie outside the new inset bounds.
