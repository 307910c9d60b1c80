/**
  Properties that relate several transitions of the session: jump eligibility
  across presses, what a restart keeps and forgets, the landing rule of one
  frame, what many frames do to the platforms and the score, and what a lost
  game freezes.
*/
module GameProperties {
  import opened Geometry
  import opened Platforms
  import opened Character
  import opened LegAnimation
  import opened Game

  const Space: KeyEvent := KeyEvent("Space", " ")

  /**
    Jump eligibility through the keydown handler: from a grounded dino in a
    running game, the first press jumps, the second is the double jump, and a
    third press before landing changes nothing.
  */
  lemma ThreePresses(cfg: Config, s: State)
    requires s.gameStarted && !s.gameOver && s.dino.onGround
    ensures OnKey(cfg, s, Space).dino.velocityY == JumpStrength(cfg)
    ensures !OnKey(cfg, s, Space).dino.onGround
    ensures !OnKey(cfg, s, Space).dino.doubleJumpUsed
    ensures OnKey(cfg, OnKey(cfg, s, Space), Space).dino.velocityY == JumpStrength(cfg)
    ensures OnKey(cfg, OnKey(cfg, s, Space), Space).dino.doubleJumpUsed
    ensures OnKey(cfg, OnKey(cfg, OnKey(cfg, s, Space), Space), Space)
         == OnKey(cfg, OnKey(cfg, s, Space), Space)
  {
    JumpSequence(cfg, s.dino);
  }

  /**
    The first Space press starts the game without jumping; only the second
    press, on the now running game, jumps.
  */
  lemma StartThenJump(cfg: Config)
    ensures OnKey(cfg, Initial(cfg), Space).dino == Initial(cfg).dino
    ensures OnKey(cfg, Initial(cfg), Space).gameStarted
    ensures OnKey(cfg, OnKey(cfg, Initial(cfg), Space), Space).dino.velocityY == JumpStrength(cfg)
  {
  }

  /**
    A restart keeps only the high score, the help popup and whether a game has
    been played; everything else about the old run is forgotten.
  */
  lemma ResetForgetsRun(cfg: Config, s1: State, s2: State, skipHome: bool)
    requires s1.highScore == s2.highScore && s1.showHelp == s2.showHelp
    requires s1.hasPlayedOnce == s2.hasPlayedOnce
    ensures Reset(cfg, s1, skipHome) == Reset(cfg, s2, skipHome)
  {
  }

  /** The R key after a game over starts a fresh, running game with the high score kept. */
  lemma RestartAfterGameOver(cfg: Config, s: State, e: KeyEvent)
    requires Valid(s) && s.gameOver && IsRestart(e)
    ensures OnKey(cfg, s, e).gameStarted && !OnKey(cfg, s, e).gameOver
    ensures OnKey(cfg, s, e).score == 0 && OnKey(cfg, s, e).highScore == s.highScore
    ensures OnKey(cfg, s, e).highScore >= s.score
    ensures OnKey(cfg, s, e).platforms == InitPlatforms(cfg)
    ensures OnKey(cfg, s, e).dino == StandingDino(cfg)
  {
  }

  /**
    A restart puts the dino, the platforms and the legs exactly where the
    corrected initial state has them (the declared dino literal differs).
  */
  lemma ResetMatchesInitial(cfg: Config, s: State, skipHome: bool)
    ensures Reset(cfg, s, skipHome).dino == Initial(cfg).dino
    ensures Reset(cfg, s, skipHome).platforms == Initial(cfg).platforms
    ensures Reset(cfg, s, skipHome).legs == Initial(cfg).legs
  {
  }

  /** Two identical clicks leave the session as it was; a click on the icon's centre toggles. */
  lemma ClickTwice(s: State, mx: real, my: real)
    ensures OnClick(OnClick(s, mx, my), mx, my) == s
    ensures OnClick(s, 40.0, 40.0).showHelp == !s.showHelp
  {
  }

  /**
    The landing rule of one running frame: the dino ends the frame grounded
    exactly when some platform, after this frame's scroll and spawn, passes the
    landing test against the dino as gravity left it; a grounded dino stands
    on the last platform the loop matched, at rest with its double jump back.
  */
  lemma UpdateLanding(cfg: Config, s: State, draws: SpawnDraws)
    requires s.gameStarted && s.platforms != []
    ensures var r := Update(cfg, s, draws);
      r.dino.onGround <==>
        exists i :: 0 <= i < |r.platforms| && Overlaps(cfg, Airborne(cfg, s.dino), r.platforms[i])
    ensures var r := Update(cfg, s, draws);
      r.dino.onGround ==>
        r.dino.velocityY == 0.0 && !r.dino.doubleJumpUsed
        && exists k :: (0 <= k < |r.platforms|
                        && IsLastMatch(cfg, Airborne(cfg, s.dino), r.platforms, k)
                        && r.dino.y == r.platforms[k].y - DinoHeight(cfg))
    ensures var r := Update(cfg, s, draws);
      !r.dino.onGround ==> r.dino == Airborne(cfg, s.dino)
  {
    var r := Update(cfg, s, draws);
    var a := Airborne(cfg, s.dino);
    assert r.dino == Land(cfg, a, r.platforms);
    LandGroundedIff(cfg, a, r.platforms);
    if r.dino.onGround {
      LandLastMatch(cfg, a, r.platforms);
    }
  }

  /** All events are frames. */
  predicate AllFrames(evs: seq<Event>) {
    forall i :: 0 <= i < |evs| ==> evs[i].Frame?
  }

  /**
    Over any number of frames, platforms are never removed: the old ones stay
    at the front of the sequence, in the same order and the same shape, and
    only move left; at most one platform is added per frame.
  */
  lemma {:induction false} FramesKeepPlatforms(cfg: Config, s: State, evs: seq<Event>)
    requires Valid(s) && AllFrames(evs)
    ensures |s.platforms| <= |Run(cfg, s, evs).platforms| <= |s.platforms| + |evs|
    ensures forall i :: 0 <= i < |s.platforms| ==>
      var p, q := s.platforms[i], Run(cfg, s, evs).platforms[i];
      q.y == p.y && q.width == p.width && q.height == p.height && q.x <= p.x
    ensures forall i, j :: 0 <= i < |s.platforms| && 0 <= j < |s.platforms| ==>
      Run(cfg, s, evs).platforms[i].x - Run(cfg, s, evs).platforms[j].x
        == s.platforms[i].x - s.platforms[j].x
    decreases |evs|
  {
    if evs != [] {
      var t := Step(cfg, s, evs[0]);
      assert t == Tick(cfg, s, evs[0].draws);
      if !s.gameOver && s.gameStarted {
        var speed := Speed(cfg, s.score);
        assert speed >= 0.0;
        assert forall i :: 0 <= i < |s.platforms| ==>
          t.platforms[i] == s.platforms[i].(x := s.platforms[i].x - speed);
      }
      assert AllFrames(evs[1..]) by {
        forall i | 0 <= i < |evs[1..]|
          ensures evs[1..][i].Frame?
        {
          assert evs[1..][i] == evs[i + 1];
        }
      }
      FramesKeepPlatforms(cfg, t, evs[1..]);
    }
  }

  /**
    Over any number of frames the score goes up by one per frame until the
    game is lost, and not at all after that.
  */
  lemma {:induction false} FramesCountScore(cfg: Config, s: State, evs: seq<Event>)
    requires Valid(s) && s.gameStarted && AllFrames(evs)
    ensures Run(cfg, s, evs).score <= s.score + |evs|
    ensures !Run(cfg, s, evs).gameOver ==> Run(cfg, s, evs).score == s.score + |evs|
    ensures s.gameOver ==> Run(cfg, s, evs).score == s.score
    decreases |evs|
  {
    if evs != [] {
      var t := Step(cfg, s, evs[0]);
      assert t == Tick(cfg, s, evs[0].draws);
      assert AllFrames(evs[1..]) by {
        forall i | 0 <= i < |evs[1..]|
          ensures evs[1..][i].Frame?
        {
          assert evs[1..][i] == evs[i + 1];
        }
      }
      FramesCountScore(cfg, t, evs[1..]);
    }
  }

  /** No event is the restart key. */
  predicate NoRestart(evs: seq<Event>) {
    forall i :: 0 <= i < |evs| ==> !(evs[i].KeyDown? && IsRestart(evs[i].key))
  }

  /**
    Once the game is lost, nothing but the restart key moves the session on:
    frames are skipped by the loop's guard and jumps are ignored, so the
    score, the high score, the dino and the platforms are frozen.
  */
  lemma {:induction false} FrozenAfterGameOver(cfg: Config, s: State, evs: seq<Event>)
    requires Valid(s) && s.gameOver && NoRestart(evs)
    ensures Run(cfg, s, evs) == s.(showHelp := Run(cfg, s, evs).showHelp)
    decreases |evs|
  {
    if evs != [] {
      var t := Step(cfg, s, evs[0]);
      assert t == s.(showHelp := t.showHelp);
      assert NoRestart(evs[1..]) by {
        forall i | 0 <= i < |evs[1..]|
          ensures !(evs[1..][i].KeyDown? && IsRestart(evs[1..][i].key))
        {
          assert evs[1..][i] == evs[i + 1];
        }
      }
      FrozenAfterGameOver(cfg, t, evs[1..]);
    }
  }

  /**
    The start of the first game from the declared dino literal: when the
    starting press is followed directly by a frame, that frame drops the dino
    through the ground platform, because the dino's bottom starts a whole dino
    height below the platform's top, beyond the landing test's tolerance of a
    tenth of that height. No platform catches it in that frame: the one
    spawned lies beyond the canvas's right edge. (The one double jump left
    cannot lift the dino high enough to land again, so that game is lost;
    that consequence is not proved here.)
  */
  lemma AsWrittenFirstFrameFallsThrough(cfg: Config, draws: SpawnDraws)
    requires ValidConfig(cfg) && ValidDraws(draws)
    ensures var r := Update(cfg, OnKey(cfg, InitialAsWritten(cfg), Space), draws);
      !r.dino.onGround && r.dino.y > StandY(cfg)
  {
    var s := OnKey(cfg, InitialAsWritten(cfg), Space);
    var r := Update(cfg, s, draws);
    var a := Airborne(cfg, s.dino);
    assert s.platforms == InitPlatforms(cfg);
    assert |r.platforms| == 2 && r.platforms[1] == NewPlatform(cfg, draws);
    NewPlatformBounds(cfg, draws);
    assert !Overlaps(cfg, a, r.platforms[0]);
    assert !Overlaps(cfg, a, r.platforms[1]);
    UpdateLanding(cfg, s, draws);
  }

  /**
    The same start from the corrected initial state: the dino, standing on the
    ground platform, stays on it through the first frame.
  */
  lemma CorrectedFirstFrameLands(cfg: Config, draws: SpawnDraws)
    requires ValidConfig(cfg) && ValidDraws(draws) && cfg.width >= 6.0
    ensures var r := Update(cfg, OnKey(cfg, Initial(cfg), Space), draws);
      r.dino.onGround && r.dino.y == StandY(cfg) && !r.gameOver
  {
    var s := OnKey(cfg, Initial(cfg), Space);
    var r := Update(cfg, s, draws);
    var a := Airborne(cfg, s.dino);
    assert s.platforms == InitPlatforms(cfg);
    assert |r.platforms| == 2 && r.platforms[1] == NewPlatform(cfg, draws);
    NewPlatformBounds(cfg, draws);
    assert Speed(cfg, 0) < cfg.width * 0.9 by {
      assert BaseSpeed(cfg) == 5.0 || BaseSpeed(cfg) == cfg.width / 400.0;
    }
    assert Overlaps(cfg, a, r.platforms[0]);
    assert !Above(cfg, r.platforms[1]);
    UpdateLanding(cfg, s, draws);
    var k :| 0 <= k < |r.platforms| && IsLastMatch(cfg, a, r.platforms, k)
      && r.dino.y == r.platforms[k].y - DinoHeight(cfg);
    assert k == 0;
  }
}
