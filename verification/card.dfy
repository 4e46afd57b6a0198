/**
 The card generator: given a character record, which fonts could be loaded and a
 text-measuring function, it decides what is drawn where. Pixels are not modelled;
 the result lists the portrait paste and every text draw with its position.
 */
module CardGen {
  import opened Numerals
  import opened Layout

  /** The character record the card is drawn from. */
  datatype Character = Character(
    name: string,
    world: string,
    className: string,
    level: int,
    combatPower: int,
    image: string  // URL of the portrait
  )

  datatype Font = TrueType(path: string, size: nat) | DefaultFont

  datatype Fonts = Fonts(title: Font, info: Font)

  const FontPath := "C:/Windows/Fonts/malgunbd.ttf"

  /** One `draw.text` call: the text's top-left corner, the text, its font and colour. */
  datatype TextDraw = TextDraw(x: int, y: int, text: string, font: Font, fill: Rgb)

  /**
   The portrait step: the image at `source` is resized to `enlargedSize` squared,
   `crop` is cut out of it, and the cut is pasted (with its own alpha) onto `target`.
   */
  datatype PortraitPaste = PortraitPaste(source: string, enlargedSize: int, crop: Box, target: Box)

  datatype CardImage = CardImage(
    width: int,
    height: int,
    background: Rgb,
    portrait: PortraitPaste,
    texts: seq<TextDraw>
  )

  /**
   Font loading. When the font file loads, the title face is the configured title size
   and the body face the configured info size; otherwise both fall back to the built-in
   default. `fileLoads` stands for the outcome of reading the font file.
   */
  function LoadFonts(c: Config, fileLoads: bool): (f: Fonts)
    ensures f.title.DefaultFont? <==> f.info.DefaultFont?
    ensures f.title.DefaultFont? <==> !fileLoads
    ensures f.title.TrueType? ==> f.title.size == c.titleSize && f.info.size == c.infoSize
    ensures f.title.TrueType? ==> f.title.path == FontPath && f.info.path == FontPath
  {
    if fileLoads then Fonts(TrueType(FontPath, c.titleSize), TrueType(FontPath, c.infoSize))
    else Fonts(DefaultFont, DefaultFont)
  }

  /** The level line: "Lv. " followed by the decimal text of the level. */
  function LevelLine(level: int): (s: string)
    ensures |s| > 4 && s[..4] == "Lv. "
    ensures ParseDecimal(s[4..]) == Some(level)
  {
    var s := "Lv. " + DecimalText(level);
    assert s[4..] == DecimalText(level);
    s
  }

  /** The combat power line, written with thousands separators. */
  function CombatPowerLine(power: int): (s: string)
    ensures ParseGrouped(s) == Some(power)
    ensures power >= 0 ==> Grouped(s) && (',' in s <==> power >= 1000)
  {
    GroupedTextShape(power);
    GroupedText(power)
  }

  /**
   The detail lines in drawing order: world, class, level, combat power. The level and
   combat power lines read back as the record's values.
   */
  function DetailLines(ch: Character): (lines: seq<string>)
    ensures |lines| == DetailCount
    ensures lines[0] == ch.world && lines[1] == ch.className
    ensures |lines[2]| > 4 && lines[2][..4] == "Lv. " && ParseDecimal(lines[2][4..]) == Some(ch.level)
    ensures ParseGrouped(lines[3]) == Some(ch.combatPower)
  {
    [ch.world, ch.className, LevelLine(ch.level), CombatPowerLine(ch.combatPower)]
  }

  /** One line of text centred horizontally at top edge `y`; `measure` gives a text's pixel width. */
  function CentredLine(c: Config, text: string, font: Font, measure: (Font, string) -> int, y: int): (d: TextDraw)
    ensures d.text == text && d.font == font && d.y == y && d.fill == c.textColor
    ensures Centred(c.cardWidth, measure(font, text), d.x)
    ensures 0 <= measure(font, text) <= c.cardWidth ==> 0 <= d.x && d.x + measure(font, text) <= c.cardWidth
  {
    TextDraw(CenterX(c.cardWidth, measure(font, text)), y, text, font, c.textColor)
  }

  /**
   The detail loop: each line is centred on its own, starting at the first info slot
   and moving down one line step per line.
   */
  method LayoutDetails(c: Config, lines: seq<string>, font: Font, measure: (Font, string) -> int)
    returns (draws: seq<TextDraw>)
    ensures |draws| == |lines|
    ensures forall k :: 0 <= k < |lines| ==>
      draws[k].text == lines[k] && draws[k].font == font && draws[k].fill == c.textColor
    ensures forall k :: 0 <= k < |lines| ==>
      draws[k].y == DetailY(c, k) && Centred(c.cardWidth, measure(font, lines[k]), draws[k].x)
  {
    draws := [];
    var y := c.firstInfoY;
    for i := 0 to |lines|
      invariant |draws| == i
      invariant y == DetailY(c, i)
      invariant forall k :: 0 <= k < i ==> draws[k] == CentredLine(c, lines[k], font, measure, DetailY(c, k))
    {
      draws := draws + [CentredLine(c, lines[i], font, measure, y)];
      DetailYStep(c, i);
      y := y + c.lineStep;
    }
  }

  /** Lines at the name slot and then at the detail slots go strictly down a sound card and start inside it. */
  lemma TextRowsOrdered(c: Config, texts: seq<TextDraw>)
    requires Sound(c) && |texts| == 1 + DetailCount && texts[0].y == c.nameY
    requires forall k :: 1 <= k < |texts| ==> texts[k].y == DetailY(c, k - 1)
    ensures forall k, l :: 0 <= k < l < |texts| ==> texts[k].y < texts[l].y
    ensures forall k :: 0 <= k < |texts| ==> 0 <= texts[k].y < c.cardHeight
  {
    Arrangement(c);
    forall k, l | 0 <= k < l < |texts|
      ensures texts[k].y < texts[l].y
    {
      if k > 0 {
        assert texts[k].y == DetailY(c, k - 1) && texts[l].y == DetailY(c, l - 1);
      }
    }
  }

  /**
   Builds the card for `ch` on a sound configuration. The canvas has the configured
   size and background; the configured crop of the enlarged portrait is pasted inside
   the canvas; the name comes first, at or below the portrait, then the four detail
   lines; every line is centred, and the lines go strictly down the card and start
   inside it.
   */
  method CreateCard(c: Config, ch: Character, fontFileLoads: bool, measure: (Font, string) -> int)
    returns (card: CardImage)
    requires Sound(c)
    ensures card.width == c.cardWidth && card.height == c.cardHeight && card.background == c.background
    ensures card.portrait.source == ch.image && card.portrait.enlargedSize == c.enlargedSize
    ensures card.portrait.crop == c.cropBox && card.portrait.target == PortraitBox(c)
    ensures card.portrait.target.Width() == card.portrait.crop.Width()
    ensures card.portrait.target.Height() == card.portrait.crop.Height()
    ensures card.portrait.target.Within(Box(0, 0, card.width, card.height))
    ensures |card.texts| == 1 + DetailCount
    ensures card.texts[0].text == ch.name && card.texts[0].font == LoadFonts(c, fontFileLoads).title
    ensures card.texts[0].y == c.nameY
    ensures forall k :: 1 <= k < |card.texts| ==>
      card.texts[k].text == DetailLines(ch)[k - 1] && card.texts[k].font == LoadFonts(c, fontFileLoads).info
    ensures forall k :: 1 <= k < |card.texts| ==> card.texts[k].y == DetailY(c, k - 1)
    ensures forall k :: 0 <= k < |card.texts| ==>
      Centred(card.width, measure(card.texts[k].font, card.texts[k].text), card.texts[k].x)
    ensures forall k :: 0 <= k < |card.texts| ==> card.texts[k].fill == c.textColor
    ensures card.portrait.target.bottom <= card.texts[0].y
    ensures forall k, l :: 0 <= k < l < |card.texts| ==> card.texts[k].y < card.texts[l].y
    ensures forall k :: 0 <= k < |card.texts| ==> 0 <= card.texts[k].y < card.height
  {
    Arrangement(c);
    var portrait := PortraitPaste(ch.image, c.enlargedSize, c.cropBox, PortraitBox(c));
    var fonts := LoadFonts(c, fontFileLoads);
    var name := CentredLine(c, ch.name, fonts.title, measure, c.nameY);
    var details := LayoutDetails(c, DetailLines(ch), fonts.info, measure);
    var texts := [name] + details;
    assert texts[0] == name && |texts| == 1 + DetailCount;
    forall k | 1 <= k < |texts|
      ensures texts[k] == details[k - 1]
    {
    }
    TextRowsOrdered(c, texts);
    card := CardImage(c.cardWidth, c.cardHeight, c.background, portrait, texts);
  }

  /**
   The card as the generator draws it: 400 x 650 on a (250, 250, 250) background, the
   portrait at (75, 60)-(325, 310) cut from (125, 125)-(375, 375) of the 500 x 500
   enlargement, the name in the title font at y = 330 and the detail lines in the info
   font at y = 385, 420, 455, 490, all in (40, 40, 40).
   */
  method CreateDefaultCard(ch: Character, fontFileLoads: bool, measure: (Font, string) -> int)
    returns (card: CardImage)
    ensures card.width == 400 && card.height == 650
    ensures card.background == Rgb(250, 250, 250) && card.portrait.source == ch.image
    ensures card.portrait.enlargedSize == 500
    ensures card.portrait.crop == Box(125, 125, 375, 375) && card.portrait.target == Box(75, 60, 325, 310)
    ensures |card.texts| == 5 && card.texts[0].y == 330
    ensures forall k :: 1 <= k < |card.texts| ==> card.texts[k].y == 385 + 35 * (k - 1)
    ensures card.texts[0].text == ch.name && card.texts[0].font == LoadFonts(Card, fontFileLoads).title
    ensures forall k :: 1 <= k < |card.texts| ==>
      card.texts[k].text == DetailLines(ch)[k - 1] && card.texts[k].font == LoadFonts(Card, fontFileLoads).info
    ensures forall k :: 0 <= k < |card.texts| ==> card.texts[k].fill == Rgb(40, 40, 40)
    ensures forall k :: 0 <= k < |card.texts| ==>
      Centred(400, measure(card.texts[k].font, card.texts[k].text), card.texts[k].x)
  {
    CardSound();
    card := CreateCard(Card, ch, fontFileLoads, measure);
  }
}
