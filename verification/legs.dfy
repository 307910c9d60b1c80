/**
  The two-frame walking animation (game.js:123-125, 250-259): while the dino
  walks, a frame counter runs from 0 to `LegSwitchRate - 1` and the sprite
  toggle flips each time it wraps; at any other time the legs are at rest.
*/
module LegAnimation {

  const LegSwitchRate: nat := 6

  datatype Legs = Legs(toggle: bool, counter: nat)

  /** The resting pose, also the pose after a reset. */
  const Standing: Legs := Legs(true, 0)

  /**
    One frame of animation. `walking` is the frame's "grounded, started and not
    over" test. The counter never leaves [0, LegSwitchRate); while walking it
    counts on modulo the rate, and the toggle flips exactly on the wrap.
  */
  function Animate(walking: bool, l: Legs): (r: Legs)
    ensures r.counter < LegSwitchRate
    ensures !walking ==> r == Standing
    ensures walking && l.counter < LegSwitchRate ==> r.counter == (l.counter + 1) % LegSwitchRate
    ensures walking ==> (r.toggle != l.toggle <==> l.counter + 1 >= LegSwitchRate)
  {
    if walking then
      var c := l.counter + 1;
      if c >= LegSwitchRate then Legs(!l.toggle, 0) else Legs(l.toggle, c)
    else
      Standing
  }

  /** `n` consecutive walking frames. */
  function Walk(l: Legs, n: nat): Legs {
    if n == 0 then l else Animate(true, Walk(l, n - 1))
  }

  /**
    Walking from the rest counter for `n` frames leaves the counter at `n` modulo
    the rate and the toggle flipped once per completed period of `LegSwitchRate` frames.
  */
  lemma {:induction false} WalkPeriodic(t: bool, n: nat)
    ensures Walk(Legs(t, 0), n).counter == n % LegSwitchRate
    ensures Walk(Legs(t, 0), n).toggle == (t == ((n / LegSwitchRate) % 2 == 0))
  {
    if n > 0 {
      WalkPeriodic(t, n - 1);
      var m := n - 1;
      if m % LegSwitchRate == LegSwitchRate - 1 {
        assert n % LegSwitchRate == 0 && n / LegSwitchRate == m / LegSwitchRate + 1;
      } else {
        assert n % LegSwitchRate == m % LegSwitchRate + 1 && n / LegSwitchRate == m / LegSwitchRate;
      }
    }
  }
}
