# MapleCards character card layout, in Dafny

MapleCards renders a "character card" PNG for a MapleStory character: a portrait
fetched from a URL, the character's name, and four detail lines (world, class, level
and combat power). This project models the deterministic part of
`CardGenerator.create_card`, which is the layout arithmetic and the number formatting:

- `numerals.dfy` (module `Numerals`) has Python's `str(n)` and the thousands-separator
  format `format(n, ",")`, which is what `f"{int(x):,}"` prints, for integers of up to
  4300 digits (see "Left out" for the limit). Each has a parser that
  accepts exactly the strings the printer produces. The model proves the round trips
  and the grouping shape.
- `layout.dfy` (module `Layout`) has the frozen configuration record `Config` and its
  one value `Card` (400 x 650 canvas, 500 x 500 enlargement, crop box (125, 125, 375, 375),
  portrait top 60, name line at y = 330, detail lines from y = 385 in steps of 35). It
  also has horizontal centring `(W - w) // 2`, the centred crop square, the portrait's
  paste box and the vertical text slots. The predicate `Sound` collects what the
  layout relies on, and `CardSound` proves the card's constants meet it.
- `card.dfy` (module `CardGen`) has the character record, font loading with its
  fallback, the detail-line builder, the centred-line loop, and `CreateCard`. The
  result of `CreateCard` lists the portrait paste and every text draw with its
  position.

Text pixel widths, which the source measures with `textbbox`, are an abstract
parameter `measure: (Font, string) -> int`. So every centring statement is a
statement about integers, for any width the font might report. Python's `//` floors.
Dafny's `/` is Euclidean. With the positive divisor 2 the two agree, so a line wider
than the card (a negative `W - w`) is modelled faithfully.

## Model

| member | source | states |
|---|---|---|
| Layout.CenterX | app/image_gen.py:49-52 | the left edge `(W - w) // 2` leaves a right margin equal to the left margin or one pixel larger, for every width; a width in `0..W` fits: `0 <= x` and `x + w <= W` |
| Layout.CenterXUnique | app/image_gen.py:65-67 | `(W - w) // 2` is the only left edge with that margin property, in both directions |
| Layout.CenterSquare | app/image_gen.py:27-30 | the middle `side` x `side` square of an `outer` square has that size, lies inside it, is centred on both axes, and is exactly symmetric when `outer - side` is even |
| Layout.CropBoxCentred | app/image_gen.py:25-31 | the literal crop box (125, 125, 375, 375) is the centred 250 x 250 square of the 500 x 500 enlargement: `left == 500 - right`, `top == 500 - bottom` |
| Layout.PortraitBox | app/image_gen.py:33-36 | the pasted portrait has the crop's size, starts at the top margin, and is horizontally centred on the card |
| Layout.DetailYStep | app/image_gen.py:55-68 | the closed-form slot `DetailY` agrees with the loop's running `info_y`: slot 0 is at `firstInfoY`, and each later slot is one `lineStep` below the previous one |
| Layout.DetailYIncreasing | app/image_gen.py:55-68 | with a positive line step, a later detail slot is strictly lower, by at least one step |
| Layout.CardSound | app/image_gen.py:9-68 | the card's constants satisfy `Sound`; the portrait lands at (75, 60)-(325, 310), and `(400 - 250) // 2 == 75` |
| Layout.Arrangement | app/image_gen.py:34-68 | on a sound layout, the portrait is inside the canvas, the name line is at or below the portrait's bottom edge, and the four detail slots are below the name, strictly increasing, and start above the canvas bottom |
| Numerals.DigitsRoundTrip | app/image_gen.py:59 | `str(n)` for `n >= 0` reads back as `n`, and the only canonical numeral that reads as `n` is `str(n)` |
| Numerals.FormatRoundTrip | app/image_gen.py:60 | `Parse(Format(n)) == Some(n)`, and any string that `Parse` reads as `n` is `Format(n)`, so `format(n, ",")` is the only grouped spelling of `n` |
| Numerals.Format | app/image_gen.py:60 | `format(n, ",")` for `n >= 0` has the comma-grouped shape: digits and commas, starting with a digit, with commas exactly every four places from the end, so the first group has 1 to 3 digits and every later group exactly 3. Deleting its commas leaves the plain digits of `n` |
| Numerals.FormatHasComma | app/image_gen.py:60 | the output has a comma if and only if `n >= 1000`; below 1000 it is plain `str(n)` |
| Numerals.FormatExamples | app/image_gen.py:60 | `Format(0) == "0"`, `Format(999) == "999"`, `Format(1000) == "1,000"`, `Format(1234567) == "1,234,567"` |
| Numerals.DecimalText | app/image_gen.py:59 | `str(i)` of any integer reads back as `i` through `ParseDecimal`, and it starts with a minus sign exactly when `i < 0` |
| Numerals.DecimalTextRoundTrip | app/image_gen.py:59 | `str(i)` of any integer reads back as `i`, and the only string that `ParseDecimal` reads as `i` is `str(i)` |
| Numerals.GroupedText | app/image_gen.py:60 | `format(i, ",")` of any integer reads back as `i` through `ParseGrouped`, and it starts with a minus sign exactly when `i < 0` |
| Numerals.GroupedTextRoundTrip | app/image_gen.py:60 | `format(i, ",")` of any integer reads back as `i`, and the only string that `ParseGrouped` reads as `i` is `format(i, ",")` |
| Numerals.GroupedTextShape | app/image_gen.py:60 | for `i >= 0`, `format(i, ",")` has the grouped shape and contains a comma exactly when `i >= 1000` |
| CardGen.LoadFonts | app/image_gen.py:38-45 | the title and body fonts fall back to the default together, exactly when the font file fails to load; otherwise both are loaded from the one font file `C:/Windows/Fonts/malgunbd.ttf`, with sizes 32 and 20 |
| CardGen.LevelLine | app/image_gen.py:59 | the level line starts with `"Lv. "` and the rest reads back as the level |
| CardGen.CombatPowerLine | app/image_gen.py:60 | the combat power line reads back as the combat power; for non-negative values it has the grouped shape, with a comma exactly from 1000 up |
| CardGen.DetailLines | app/image_gen.py:56-61 | there are exactly four detail lines, in the order world, class, level line, combat power line; the last two read back as the record's level and combat power |
| CardGen.CentredLine | app/image_gen.py:49-52 | a drawn line keeps its text, font, colour and y, and its x centres the measured width on the card |
| CardGen.LayoutDetails | app/image_gen.py:63-68 | the loop draws line `k` at `y = firstInfoY + k * lineStep`, centred on its own measured width, with the info font and text colour |
| CardGen.CreateCard | app/image_gen.py:13-68 | on a sound config, the canvas size and background come from the config, and the configured crop of the enlargement is pasted at the portrait box, with the crop's size, inside the canvas. The name comes first, with the title font, at or below the portrait. The four detail lines follow in order with the info font. Every line is drawn in the configured text colour and centred, the lines go strictly down the card, and each starts inside it |
| CardGen.CreateDefaultCard | app/image_gen.py:9-68 | with the card's own constants: a 400 x 650 card on a (250, 250, 250) background; the portrait from the record's URL, resized to 500 x 500, cropped at (125, 125, 375, 375) and pasted at (75, 60)-(325, 310); the name in the title font at y = 330; the four detail lines in order in the info font at y = 385, 420, 455 and 490; all centred and drawn in (40, 40, 40) |

## Left out

- Fetching the portrait with httpx (app/image_gen.py:18-20) is network I/O. The URL is carried through as `PortraitPaste.source`. The source has no error handling there: a failed fetch or an undecodable image raises out of `create_card`. That failure path is not modelled.
- Pillow's pixel work is not modelled: creating the canvas, LANCZOS resizing, copying the crop's pixels, alpha-composited pasting, `draw.text`, and PNG encoding (app/image_gen.py:14-15, 25, 31, 36, 52, 67, 71-74). These are foreign library calls with floating-point resampling. The model keeps only their geometry.
- Glyph measurement with `textbbox` (app/image_gen.py:49-50, 65-66) is the abstract `measure` parameter. Glyph height is not modelled, so "inside the card" means a line's top edge is inside the canvas.
- Font file loading (app/image_gen.py:39-45) is file-system and library behaviour. It is the boolean `fileLoads`, which stands for whether the `try` block succeeded.
- `Character` stands for the `data` dict (app/image_gen.py:13). A missing key, which raises `KeyError` at app/image_gen.py:19, 48 and 57-60, is not modelled: every field is present.
- `level` is taken to be an int, so `f"Lv. {data['level']}"` (app/image_gen.py:59) is `"Lv. " + str(level)`. A float or string level, which the source would print as it is (a float as "Lv. 250.0"), is not modelled.
- DecimalText, GroupedText, LevelLine, CombatPowerLine: these print every integer. CPython (3.11 on, and the 3.7-3.10 security releases) raises `ValueError` when converting an int of more than 4300 decimal digits to text (`sys.int_max_str_digits`), so app/image_gen.py:59-60 fail for such a level or combat power. The limit is an interpreter setting, not part of the program, so the model leaves it out.
- `int(data['combat_power'])` on a string or float, and its `ValueError`, is not modelled. The record's `combatPower` is already an integer.
- `CreateCard` takes the configuration as a parameter and requires `Sound`. The source has one fixed configuration, which is `Card`; `CreateDefaultCard` is the source's behaviour with those constants. That the crop box is the centred square of the enlargement is proved for the card's own constants (`CropBoxCentred`), not required of every configuration.
- app/scraper.py and app/main.py are not part of this model. They are an HTTP scraper that returns placeholder data, and FastAPI routing that imports a class the scraper does not define.
