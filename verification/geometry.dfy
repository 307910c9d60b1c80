/**
  Canvas-derived sizes and constants of the relatively sized Sky Dino game
  (game.js:88-115). The canvas size is a parameter: window resizing and
  device-pixel-ratio handling are not modelled, so every quantity below is a
  pure function of one `Config`.
*/
module Geometry {

  /** Canvas width and height, as the game reads them from the canvas element. */
  datatype Config = Config(width: real, height: real)

  /** A canvas that actually shows something. */
  predicate ValidConfig(cfg: Config) {
    cfg.width > 0.0 && cfg.height > 0.0
  }

  /** Height of the sky band below the ground line (`SKY_OFFSET`). */
  function SkyOffset(cfg: Config): real {
    cfg.height * 0.2
  }

  /** Thickness of every platform (`PLATFORM_HEIGHT`). */
  function PlatformHeight(cfg: Config): real {
    cfg.height * 0.02
  }

  /** `BASE_SPEED = Math.max(5, width / 400)`: the larger of the two, so never below 5. */
  function BaseSpeed(cfg: Config): (r: real)
    ensures r >= 5.0 && r >= cfg.width / 400.0
    ensures r == 5.0 || r == cfg.width / 400.0
  {
    if cfg.width / 400.0 > 5.0 then cfg.width / 400.0 else 5.0
  }

  /** Fixed horizontal position and size of the dino. */
  function DinoX(cfg: Config): real {
    cfg.width * 0.1
  }

  function DinoWidth(cfg: Config): real {
    cfg.width * 0.08
  }

  function DinoHeight(cfg: Config): real {
    cfg.height * 0.08
  }

  /** Per-frame velocity increment (positive y points down the canvas). */
  function Gravity(cfg: Config): real {
    cfg.height * 0.006
  }

  /** Velocity a jump sets (negative: upwards). */
  function JumpStrength(cfg: Config): real {
    -(cfg.height * 0.03)
  }

  /** The highest the dino's top edge may go. */
  function Ceiling(cfg: Config): real {
    cfg.height * 0.05
  }

  /** The dino is lost once its top edge is below this line. */
  function FallLimit(cfg: Config): real {
    cfg.height + DinoHeight(cfg)
  }

  /** Top of the ground line, where the first platform lies. */
  function GroundY(cfg: Config): real {
    cfg.height - SkyOffset(cfg)
  }

  /** The y at which the dino stands on the ground line (its bottom edge touches it). */
  function StandY(cfg: Config): real {
    GroundY(cfg) - DinoHeight(cfg)
  }

  /**
    Scroll speed of a frame whose score, read before the frame's increment, is
    `score`: a linear ramp of 1/500 per point on top of the base speed.
  */
  function Speed(cfg: Config, score: nat): (r: real)
    ensures r >= BaseSpeed(cfg) >= 5.0
    ensures (r - BaseSpeed(cfg)) * 500.0 == score as real
  {
    BaseSpeed(cfg) + (score as real) / 500.0
  }

  /** A higher score never scrolls slower. */
  lemma SpeedMonotone(cfg: Config, a: nat, b: nat)
    requires a <= b
    ensures Speed(cfg, a) <= Speed(cfg, b)
    ensures Speed(cfg, b) - Speed(cfg, a) == (b - a) as real / 500.0
  {
  }
}
