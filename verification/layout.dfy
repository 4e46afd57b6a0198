/**
 The fixed geometry of the character card: canvas size, the centre crop of the
 enlarged portrait, where the portrait is pasted, and the vertical slots of the
 text lines. All coordinates are integer pixels with the origin at the top-left
 corner and y growing downwards; boxes are half-open, (left, top, right, bottom).
 */
module Layout {

  datatype Rgb = Rgb(red: int, green: int, blue: int)

  datatype Box = Box(left: int, top: int, right: int, bottom: int) {

    function Width(): int {
      right - left
    }

    function Height(): int {
      bottom - top
    }

    /** True if this box lies entirely inside `outer`. */
    predicate Within(outer: Box) {
      outer.left <= left && right <= outer.right && outer.top <= top && bottom <= outer.bottom
    }
  }

  /** The card's frozen configuration. */
  datatype Config = Config(
    cardWidth: int,
    cardHeight: int,
    background: Rgb,
    textColor: Rgb,
    enlargedSize: int,  // the portrait is first resized to an enlargedSize x enlargedSize square
    cropBox: Box,       // the region of the enlarged portrait that is kept
    portraitTop: int,
    titleSize: nat,
    infoSize: nat,
    nameY: int,
    firstInfoY: int,
    lineStep: int
  )

  const Card: Config := Config(
    cardWidth := 400,
    cardHeight := 650,
    background := Rgb(250, 250, 250),
    textColor := Rgb(40, 40, 40),
    enlargedSize := 500,
    cropBox := Box(125, 125, 375, 375),
    portraitTop := 60,
    titleSize := 32,
    infoSize := 20,
    nameY := 330,
    firstInfoY := 385,
    lineStep := 35
  )

  /** Number of detail lines under the name: world, class, level, combat power. */
  const DetailCount := 4

  function CanvasBox(c: Config): Box {
    Box(0, 0, c.cardWidth, c.cardHeight)
  }

  /**
   Something `width` wide at left edge `x` is centred in `total`: the right margin
   equals the left margin or exceeds it by one pixel.
   */
  predicate Centred(total: int, width: int, x: int) {
    x <= total - width - x <= x + 1
  }

  /**
   The left edge that centres something `width` pixels wide in `total` pixels, Python's
   `(total - width) // 2`. The divisor is positive, so floor division and Dafny's
   Euclidean division agree even when `width > total`.
   */
  function CenterX(total: int, width: int): (x: int)
    ensures Centred(total, width, x)
    ensures 0 <= width <= total ==> 0 <= x && x + width <= total
  {
    (total - width) / 2
  }

  /** `CenterX` is the only left edge that centres: `Centred` characterises it. */
  lemma CenterXUnique(total: int, width: int, x: int)
    ensures Centred(total, width, x) <==> x == CenterX(total, width)
  {
  }

  /** The `side` x `side` square in the middle of an `outer` x `outer` image. */
  function CenterSquare(outer: int, side: int): (b: Box)
    requires 0 <= side <= outer
    ensures b.Width() == side && b.Height() == side
    ensures b.Within(Box(0, 0, outer, outer))
    ensures Centred(outer, side, b.left) && Centred(outer, side, b.top)
    ensures (outer - side) % 2 == 0 ==> b.left == outer - b.right && b.top == outer - b.bottom
  {
    var offset := CenterX(outer, side);
    Box(offset, offset, offset + side, offset + side)
  }

  /** The card's crop box is the exactly centred 250 x 250 square of the 500 x 500 enlargement. */
  lemma CropBoxCentred()
    ensures Card.cropBox == CenterSquare(Card.enlargedSize, Card.cropBox.Width())
    ensures Card.cropBox.Width() == Card.cropBox.Height() == 250
    ensures Card.cropBox.left == Card.enlargedSize - Card.cropBox.right
    ensures Card.cropBox.top == Card.enlargedSize - Card.cropBox.bottom
  {
    assert Card.enlargedSize == 500 && Card.cropBox == Box(125, 125, 375, 375);
    assert CenterX(500, 250) == 125;
    assert CenterSquare(500, 250) == Box(125, 125, 375, 375);
  }

  /**
   Where the cropped portrait lands on the canvas: horizontally centred, at the
   configured top margin, with the size of the crop box.
   */
  function PortraitBox(c: Config): (b: Box)
    ensures b.Width() == c.cropBox.Width() && b.Height() == c.cropBox.Height()
    ensures b.top == c.portraitTop && Centred(c.cardWidth, c.cropBox.Width(), b.left)
  {
    var x := CenterX(c.cardWidth, c.cropBox.Width());
    Box(x, c.portraitTop, x + c.cropBox.Width(), c.portraitTop + c.cropBox.Height())
  }

  /** The top edge of detail line `i` (0-based), in closed form. */
  function DetailY(c: Config, i: nat): int {
    c.firstInfoY + c.lineStep * i
  }

  /**
   The closed form agrees with the drawing loop's running y: the first line starts at
   `firstInfoY`, and each later line starts one `lineStep` below the one before it.
   */
  lemma DetailYStep(c: Config, i: nat)
    ensures DetailY(c, 0) == c.firstInfoY
    ensures DetailY(c, i + 1) == DetailY(c, i) + c.lineStep
  {
    assert c.lineStep * (i + 1) == c.lineStep * i + c.lineStep;
  }

  /**
   With a positive line step the detail slots go strictly down the card, one step
   apart; adjacent slots are `lineStep` apart.
   */
  lemma {:induction false} DetailYIncreasing(c: Config, i: nat, j: nat)
    requires c.lineStep > 0 && i < j
    ensures DetailY(c, i) < DetailY(c, j)
    ensures DetailY(c, j) - DetailY(c, i) >= c.lineStep
    decreases j - i
  {
    DetailYStep(c, i);
    if i + 1 < j {
      DetailYIncreasing(c, i + 1, j);
    }
  }

  /**
   What the layout relies on: the portrait is no wider than the card, it ends at or
   above the name line, the name line is above the first detail line, lines go down
   the card, and the last of the `DetailCount` slots starts inside the card.
   */
  predicate Sound(c: Config) {
    && 0 <= c.cropBox.Width() <= c.cardWidth
    && 0 <= c.cropBox.Height()
    && 0 <= c.portraitTop
    && c.portraitTop + c.cropBox.Height() <= c.nameY
    && c.nameY < c.firstInfoY
    && c.lineStep > 0
    && c.firstInfoY + 3 * c.lineStep < c.cardHeight  // 3 == DetailCount - 1: the last slot, DetailY(c, 3)
  }

  /** The card's own constants are sound; its portrait lands at (75, 60)-(325, 310). */
  lemma CardSound()
    ensures Sound(Card)
    ensures PortraitBox(Card) == Box(75, 60, 325, 310)
  {
    assert CenterX(400, 250) == 75;
  }

  /**
   The vertical arrangement of a sound layout: the portrait is inside the canvas, the
   name line sits at or below the portrait's bottom edge, and the detail slots come
   below the name, in order, and start above the canvas's bottom edge.
   */
  lemma Arrangement(c: Config)
    requires Sound(c)
    ensures PortraitBox(c).Within(CanvasBox(c))
    ensures PortraitBox(c).bottom <= c.nameY
    ensures forall i :: 0 <= i < DetailCount ==> c.nameY < DetailY(c, i) < c.cardHeight
    ensures forall i, j :: 0 <= i < j < DetailCount ==> DetailY(c, i) < DetailY(c, j)
  {
    forall i, j | 0 <= i < j < DetailCount
      ensures DetailY(c, i) < DetailY(c, j)
    {
      DetailYIncreasing(c, i, j);
    }
    forall i | 0 < i < DetailCount
      ensures DetailY(c, 0) < DetailY(c, i) && DetailY(c, i) <= DetailY(c, DetailCount - 1)
    {
      DetailYIncreasing(c, 0, i);
      if i < DetailCount - 1 {
        DetailYIncreasing(c, i, DetailCount - 1);
      }
    }
  }
}
