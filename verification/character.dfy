/**
  The dino's vertical state and the three things that change it: a jump key
  press (game.js:146-157), the per-frame Euler step with the altitude clamp
  (game.js:208-215) and the landing-collision loop over the platforms
  (game.js:229-242). Its x position, width and height are fixed by the canvas
  (module Geometry).
*/
module Character {
  import opened Geometry
  import opened Platforms

  datatype Dino = Dino(y: real, velocityY: real, onGround: bool, doubleJumpUsed: bool)

  /** How many more jumps the dino may make before it next lands. */
  function JumpsLeft(d: Dino): nat {
    if d.onGround then 2 else if !d.doubleJumpUsed then 1 else 0
  }

  /**
    A jump press while playing: from the ground, the first jump; in the air,
    the one double jump. Each spends one jump and sets the jump velocity; with
    none left the dino is untouched. Either way it ends up airborne.
  */
  function Jump(cfg: Config, d: Dino): (r: Dino)
    ensures JumpsLeft(d) > 0 ==>
      JumpsLeft(r) == JumpsLeft(d) - 1 && r.velocityY == JumpStrength(cfg) && r.y == d.y
    ensures JumpsLeft(d) == 0 ==> r == d
    ensures !r.onGround
  {
    if d.onGround then
      d.(velocityY := JumpStrength(cfg), onGround := false, doubleJumpUsed := false)
    else if !d.doubleJumpUsed then
      d.(velocityY := JumpStrength(cfg), doubleJumpUsed := true)
    else
      d
  }

  /**
    Three presses from the ground: the first lifts off with the double jump still
    available, the second uses it, the third changes nothing.
  */
  lemma JumpSequence(cfg: Config, d: Dino)
    requires d.onGround
    ensures Jump(cfg, d).velocityY == JumpStrength(cfg)
    ensures !Jump(cfg, d).onGround && !Jump(cfg, d).doubleJumpUsed
    ensures Jump(cfg, Jump(cfg, d)).velocityY == JumpStrength(cfg)
    ensures Jump(cfg, Jump(cfg, d)).doubleJumpUsed
    ensures Jump(cfg, Jump(cfg, Jump(cfg, d))) == Jump(cfg, Jump(cfg, d))
  {
  }

  /**
    Gravity, then position, then the clamp that keeps the top edge at or below
    the ceiling. When the Euler step would carry the top edge above the
    ceiling, the dino is held at the ceiling at rest; otherwise the result is
    exactly the Euler step.
  */
  function Fall(cfg: Config, d: Dino): (r: Dino)
    ensures r.y >= Ceiling(cfg)
    ensures r.onGround == d.onGround && r.doubleJumpUsed == d.doubleJumpUsed
    ensures d.y + d.velocityY + Gravity(cfg) >= Ceiling(cfg) ==>
      r.velocityY == d.velocityY + Gravity(cfg) && r.y == d.y + r.velocityY
    ensures d.y + d.velocityY + Gravity(cfg) < Ceiling(cfg) ==>
      r.y == Ceiling(cfg) && r.velocityY == 0.0
  {
    var v := d.velocityY + Gravity(cfg);
    var y := d.y + v;
    if y < Ceiling(cfg) then d.(y := Ceiling(cfg), velocityY := 0.0)
    else d.(y := y, velocityY := v)
  }

  /** The horizontal half of the landing test, which the dino's vertical state cannot affect. */
  predicate Above(cfg: Config, p: Platform) {
    DinoX(cfg) < p.x + p.width && DinoX(cfg) + DinoWidth(cfg) > p.x
  }

  /**
    The four-clause landing test of one platform: horizontal overlap, the
    dino's bottom no more than a tenth of its height below the platform top, and
    its bottom plus its velocity reaching the platform top.
  */
  predicate Overlaps(cfg: Config, d: Dino, p: Platform) {
    && Above(cfg, p)
    && d.y + DinoHeight(cfg) <= p.y + DinoHeight(cfg) * 0.1
    && d.y + DinoHeight(cfg) + d.velocityY >= p.y
  }

  /** The dino standing on `p`: bottom on its top, at rest, both jumps restored. */
  function Snap(cfg: Config, p: Platform): Dino {
    Dino(p.y - DinoHeight(cfg), 0.0, true, false)
  }

  /** One iteration of the collision loop. */
  function LandOn(cfg: Config, d: Dino, p: Platform): Dino {
    if Overlaps(cfg, d, p) then Snap(cfg, p) else d
  }

  /**
    The collision loop: each platform, in sequence order, is tested against the
    dino as the earlier platforms left it. The result is either the dino
    untouched or the dino standing at rest on one of the platforms.
  */
  function Land(cfg: Config, d: Dino, ps: seq<Platform>): (r: Dino)
    decreases |ps|
    ensures r == d || (r.onGround && r.velocityY == 0.0 && !r.doubleJumpUsed
                       && exists i :: 0 <= i < |ps| && r.y == ps[i].y - DinoHeight(cfg))
  {
    if ps == [] then d
    else
      var before := Land(cfg, d, ps[..|ps| - 1]);
      var r := LandOn(cfg, before, ps[|ps| - 1]);
      assert r != before ==> r.y == ps[|ps| - 1].y - DinoHeight(cfg);
      assert forall i :: 0 <= i < |ps| - 1 ==> ps[..|ps| - 1][i] == ps[i];
      r
  }

  /**
    With the ground flag cleared first, as the loop does, the dino ends up
    grounded exactly when some platform passes the landing test against the
    dino as it was BEFORE the loop: a landing earlier in the sequence cannot
    stop a later platform from being landed on, and cannot make the dino
    grounded where no platform matched the original position.
  */
  lemma {:induction false} LandGroundedIff(cfg: Config, d: Dino, ps: seq<Platform>)
    requires !d.onGround
    ensures Land(cfg, d, ps).onGround <==> exists i :: 0 <= i < |ps| && Overlaps(cfg, d, ps[i])
    ensures !Land(cfg, d, ps).onGround ==> Land(cfg, d, ps) == d
  {
    if ps != [] {
      var init := ps[..|ps| - 1];
      var last := ps[|ps| - 1];
      LandGroundedIff(cfg, d, init);
      var before := Land(cfg, d, init);
      if exists i :: 0 <= i < |init| && Overlaps(cfg, d, init[i]) {
        var i :| 0 <= i < |init| && Overlaps(cfg, d, init[i]);
        assert ps[i] == init[i];
      } else if Overlaps(cfg, d, last) {
        assert before == d;
      } else {
        assert before == d;
        forall i | 0 <= i < |ps|
          ensures !Overlaps(cfg, d, ps[i])
        {
          if i < |init| {
            assert ps[i] == init[i];
          }
        }
      }
    }
  }

  /** The platform at `k` is matched when the loop reaches it. */
  predicate MatchesAt(cfg: Config, d: Dino, ps: seq<Platform>, k: nat)
    requires k < |ps|
  {
    Overlaps(cfg, Land(cfg, d, ps[..k]), ps[k])
  }

  /** Platform `k` is the last one the loop matches. */
  predicate IsLastMatch(cfg: Config, d: Dino, ps: seq<Platform>, k: nat)
    requires k < |ps|
  {
    MatchesAt(cfg, d, ps, k) && forall j :: k < j < |ps| ==> !MatchesAt(cfg, d, ps, j)
  }

  /** Dropping the last platform does not change what the loop does before it. */
  lemma MatchesAtPrefix(cfg: Config, d: Dino, ps: seq<Platform>, j: nat)
    requires j < |ps| - 1
    ensures ps[..|ps| - 1][j] == ps[j]
    ensures MatchesAt(cfg, d, ps, j) == MatchesAt(cfg, d, ps[..|ps| - 1], j)
  {
    assert ps[..|ps| - 1][..j] == ps[..j];
  }

  /**
    A grounded result stands on the LAST platform the loop matched: the loop
    matched platform `k`, no later platform matched, and the dino is snapped
    onto platform `k`.
  */
  lemma {:induction false} LandLastMatch(cfg: Config, d: Dino, ps: seq<Platform>)
    requires !d.onGround && Land(cfg, d, ps).onGround
    ensures exists k :: 0 <= k < |ps| && IsLastMatch(cfg, d, ps, k) && Land(cfg, d, ps) == Snap(cfg, ps[k])
  {
    var n := |ps|;
    var init := ps[..n - 1];
    if MatchesAt(cfg, d, ps, n - 1) {
      assert IsLastMatch(cfg, d, ps, n - 1);
    } else {
      assert Land(cfg, d, ps) == Land(cfg, d, init);
      LandLastMatch(cfg, d, init);
      var k :| 0 <= k < |init| && IsLastMatch(cfg, d, init, k) && Land(cfg, d, init) == Snap(cfg, init[k]);
      MatchesAtPrefix(cfg, d, ps, k);
      forall j | k < j < n
        ensures !MatchesAt(cfg, d, ps, j)
      {
        if j < n - 1 {
          MatchesAtPrefix(cfg, d, ps, j);
        }
      }
      assert IsLastMatch(cfg, d, ps, k);
    }
  }
}
