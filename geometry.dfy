/** Collider arithmetic: the sizes and offsets main.js hands to the physics
    bodies of the pipes (a shrunk rectangle) and of the penguin (a circle).
    Offsets are measured from the sprite's top-left corner. */
module Geometry {
  import opened Config

  /** Per-role rectangle collider settings: size ratios and an extra pixel shift. */
  datatype RectConfig = RectConfig(widthRatio: real, heightRatio: real, offsetX: real, offsetY: real)

  const TopPipeCollider: RectConfig := RectConfig(0.4, 1.0, 45.0, 156.0)
  const BottomPipeCollider: RectConfig := RectConfig(0.4, 0.97, 45.0, 0.0)

  /** Penguin circle collider: diameter ratio to the sprite width and pixel shift. */
  const PenguinRadiusRatio: real := 0.6
  const PenguinOffsetX: real := 10.0
  const PenguinOffsetY: real := 10.0

  /** Displayed size of a pipe sprite. */
  const PipeDisplayWidth: real := PipeTextureWidth * PipeScale
  const PipeDisplayHeight: real := PipeTextureHeight * PipeScale

  datatype Circle = Circle(radius: real, offsetX: real, offsetY: real)

  /** The collider may only shrink the sprite, never grow it. */
  predicate Shrinks(cfg: RectConfig)
  {
    0.0 < cfg.widthRatio <= 1.0 && 0.0 < cfg.heightRatio <= 1.0
  }

  /** Size passed to `body.setSize` for a pipe: the displayed size scaled by the ratios. */
  function BodySize(cfg: RectConfig, displayWidth: real, displayHeight: real): (size: (real, real))
    requires Shrinks(cfg) && 0.0 <= displayWidth && 0.0 <= displayHeight
    ensures 0.0 <= size.0 <= displayWidth && 0.0 <= size.1 <= displayHeight
    ensures displayWidth > 0.0 ==> size.0 > 0.0
    ensures displayHeight > 0.0 ==> size.1 > 0.0
  {
    ScaledDown(displayWidth, cfg.widthRatio);
    ScaledDown(displayHeight, cfg.heightRatio);
    (displayWidth * cfg.widthRatio, displayHeight * cfg.heightRatio)
  }

  /** Scaling a non-negative length by a ratio in (0, 1] keeps it between 0 and itself. */
  lemma ScaledDown(length: real, ratio: real)
    requires 0.0 <= length && 0.0 < ratio <= 1.0
    ensures 0.0 <= length * ratio <= length
    ensures length > 0.0 ==> length * ratio > 0.0
  {
  }

  /** Offset passed to `body.setOffset` for a pipe whose body reads back as
      `bodyWidth` by `bodyHeight`: the box is centred horizontally and aligned
      with the sprite's lower edge, and then shifted by the role's pixel offset. */
  function BodyOffset(cfg: RectConfig, displayWidth: real, displayHeight: real,
                      bodyWidth: real, bodyHeight: real): (offset: (real, real))
    ensures offset.0 + bodyWidth / 2.0 == displayWidth / 2.0 + cfg.offsetX
    ensures offset.1 + bodyHeight == displayHeight + cfg.offsetY
  {
    ((displayWidth - bodyWidth) / 2.0 + cfg.offsetX, displayHeight - bodyHeight + cfg.offsetY)
  }

  /** Circle collider of the penguin for a sprite displayed at the given size:
      its centre is the sprite's centre shifted by the pixel offset, and its
      diameter is a fixed fraction of the sprite's width. */
  function PenguinCollider(displayWidth: real, displayHeight: real): (c: Circle)
    requires 0.0 <= displayWidth
    ensures 0.0 <= c.radius && 2.0 * c.radius <= displayWidth
    ensures 2.0 * c.radius == PenguinRadiusRatio * displayWidth
    ensures c.offsetX + c.radius == displayWidth / 2.0 + PenguinOffsetX
    ensures c.offsetY + c.radius == displayHeight / 2.0 + PenguinOffsetY
  {
    var r := displayWidth * PenguinRadiusRatio / 2.0;
    Circle(r, displayWidth / 2.0 - r + PenguinOffsetX, displayHeight / 2.0 - r + PenguinOffsetY)
  }

  /** Both pipe roles shrink their sprite, and the sizes requested for a pipe
      drawn at the game's scale are 108 by 519.75 (top) and 108 by 504.1575 (bottom). */
  lemma PipeBodySizes()
    ensures Shrinks(TopPipeCollider) && Shrinks(BottomPipeCollider)
    ensures PipeDisplayWidth == 270.0 && PipeDisplayHeight == 519.75
    ensures BodySize(TopPipeCollider, PipeDisplayWidth, PipeDisplayHeight) == (108.0, 519.75)
    ensures BodySize(BottomPipeCollider, PipeDisplayWidth, PipeDisplayHeight) == (108.0, 504.1575)
  {
  }
}
