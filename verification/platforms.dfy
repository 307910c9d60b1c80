/**
  The platform sequence (game.js:128-135, 217-227): it starts as one ground
  platform spanning the canvas, scrolls left by the frame's speed, and grows by
  at most one platform per frame, appended at the tail. Platforms are never
  removed, even once they are far off screen.
*/
module Platforms {
  import opened Geometry

  datatype Platform = Platform(x: real, y: real, width: real, height: real) {
    /** The platform's right edge. */
    function Right(): real {
      x + width
    }
  }

  /**
    The three `Math.random()` results one spawn consumes, in evaluation order:
    the horizontal gap, the rise above the ground band and the extra width.
  */
  datatype SpawnDraws = SpawnDraws(gap: real, rise: real, extra: real)

  /** What `Math.random()` guarantees of each draw. */
  predicate ValidDraws(d: SpawnDraws) {
    && 0.0 <= d.gap < 1.0
    && 0.0 <= d.rise < 1.0
    && 0.0 <= d.extra < 1.0
  }

  /** `initPlatforms`: a single ground platform covering the whole width. */
  function InitPlatforms(cfg: Config): (r: seq<Platform>)
    ensures |r| == 1
    ensures r[0].x == 0.0 && r[0].Right() == cfg.width
    ensures r[0].y == GroundY(cfg) && r[0].height == PlatformHeight(cfg)
  {
    [Platform(0.0, GroundY(cfg), cfg.width, PlatformHeight(cfg))]
  }

  /** Every platform moves left by `speed`; nothing else about it changes. */
  function Scroll(ps: seq<Platform>, speed: real): (r: seq<Platform>)
    ensures |r| == |ps|
    ensures forall i :: 0 <= i < |ps| ==>
      r[i].x == ps[i].x - speed && r[i].y == ps[i].y
      && r[i].width == ps[i].width && r[i].height == ps[i].height
  {
    if ps == [] then []
    else [ps[0].(x := ps[0].x - speed)] + Scroll(ps[1..], speed)
  }

  /** Scrolling keeps all horizontal distances, hence the left-to-right order. */
  lemma ScrollPreservesOrder(ps: seq<Platform>, speed: real, i: nat, j: nat)
    requires i < |ps| && j < |ps|
    ensures Scroll(ps, speed)[i].x - Scroll(ps, speed)[j].x == ps[i].x - ps[j].x
    ensures Scroll(ps, speed)[i].x < Scroll(ps, speed)[j].x <==> ps[i].x < ps[j].x
  {
  }

  /** The platform a spawn appends, placed beyond the right edge of the canvas. */
  function NewPlatform(cfg: Config, d: SpawnDraws): Platform {
    Platform(
      cfg.width + cfg.width * 0.2 + d.gap * cfg.width * 0.2,
      cfg.height - (SkyOffset(cfg) + cfg.height * 0.05 + d.rise * cfg.height * 0.1),
      cfg.width * 0.15 + d.extra * cfg.width * 0.05,
      PlatformHeight(cfg))
  }

  /** The spawn trigger: the tail platform's right edge has come inside the canvas. */
  predicate NeedsSpawn(cfg: Config, ps: seq<Platform>)
    requires ps != []
  {
    ps[|ps| - 1].Right() < cfg.width
  }

  /**
    Distance-triggered spawning: the old platforms stay, in order, as a prefix,
    and exactly one platform is appended when and only when the trigger fires.
  */
  function Spawn(cfg: Config, ps: seq<Platform>, d: SpawnDraws): (r: seq<Platform>)
    requires ps != []
    ensures |ps| <= |r| <= |ps| + 1
    ensures r[..|ps|] == ps
    ensures |r| == |ps| + 1 <==> NeedsSpawn(cfg, ps)
    ensures |r| == |ps| + 1 ==> r[|ps|] == NewPlatform(cfg, d)
  {
    if NeedsSpawn(cfg, ps) then ps + [NewPlatform(cfg, d)] else ps
  }

  /**
    The platform half of a frame: scroll everything by `speed`, then spawn. The
    old platforms keep their order and their shapes and move by exactly
    `speed`; one platform is appended exactly when the scrolled tail's right
    edge is inside the canvas.
  */
  function Advance(cfg: Config, ps: seq<Platform>, speed: real, d: SpawnDraws): (r: seq<Platform>)
    requires ps != []
    ensures |ps| <= |r| <= |ps| + 1
    ensures forall i :: 0 <= i < |ps| ==> r[i] == ps[i].(x := ps[i].x - speed)
    ensures |r| > |ps| <==> ps[|ps| - 1].Right() - speed < cfg.width
    ensures |r| > |ps| ==> r[|ps|] == NewPlatform(cfg, d)
  {
    var scrolled := Scroll(ps, speed);
    var r := Spawn(cfg, scrolled, d);
    assert forall i :: 0 <= i < |ps| ==> r[i] == scrolled[i] by {
      assert r[..|ps|] == scrolled;
    }
    r
  }

  /**
    Where a spawned platform can land, given draws in [0, 1): its left edge is
    between 1.2 and 1.4 canvas widths, its width between 0.15 and 0.2 widths, and
    its top between 0.25 and 0.35 heights above the bottom of the canvas, that
    is 0.05 to 0.15 heights above the ground line.
  */
  lemma NewPlatformBounds(cfg: Config, d: SpawnDraws)
    requires ValidConfig(cfg) && ValidDraws(d)
    ensures cfg.width * 1.2 <= NewPlatform(cfg, d).x < cfg.width * 1.4
    ensures cfg.width * 0.15 <= NewPlatform(cfg, d).width < cfg.width * 0.2
    ensures cfg.height * 0.65 < NewPlatform(cfg, d).y <= cfg.height * 0.75
    ensures NewPlatform(cfg, d).x > cfg.width
  {
    NewPlatformX(cfg, d);
    NewPlatformWidth(cfg, d);
    NewPlatformY(cfg, d);
  }

  lemma NewPlatformX(cfg: Config, d: SpawnDraws)
    requires ValidConfig(cfg) && ValidDraws(d)
    ensures cfg.width * 1.2 <= NewPlatform(cfg, d).x < cfg.width * 1.4
  {
  }

  lemma NewPlatformWidth(cfg: Config, d: SpawnDraws)
    requires ValidConfig(cfg) && ValidDraws(d)
    ensures cfg.width * 0.15 <= NewPlatform(cfg, d).width < cfg.width * 0.2
  {
  }

  lemma NewPlatformY(cfg: Config, d: SpawnDraws)
    requires ValidConfig(cfg) && ValidDraws(d)
    ensures cfg.height * 0.65 < NewPlatform(cfg, d).y <= cfg.height * 0.75
  {
  }

  /**
    After spawning, the tail platform's right edge is at or beyond the canvas
    width: the trigger never stays armed into the next frame's scroll.
  */
  lemma SpawnKeepsTailAhead(cfg: Config, ps: seq<Platform>, d: SpawnDraws)
    requires ps != [] && ValidConfig(cfg) && ValidDraws(d)
    ensures !NeedsSpawn(cfg, Spawn(cfg, ps, d))
  {
    if NeedsSpawn(cfg, ps) {
      NewPlatformBounds(cfg, d);
      var r := Spawn(cfg, ps, d);
      assert r[|r| - 1] == NewPlatform(cfg, d);
    }
  }
}
