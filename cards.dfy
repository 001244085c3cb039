/** The card table and the card draw that both versions of the game share.

    The random generator is not modelled: a draw is given the index the
    generator produced (`Math.floor(Math.random() * 13)` in the TypeScript
    version, `rand.Intn(13)` in the Go version), so that every game becomes a
    deterministic function of the stream of indices it consumes.
 */
module Cards {

  /** Display glyphs of the spade suit, Ace to King. The Knight of Spades
      (U+1F0AC) is not part of the table, so Queen and King follow the Jack. */
  const CARD_SYMBOLS: seq<string> := [
    "\U{1F0A1}", "\U{1F0A2}", "\U{1F0A3}", "\U{1F0A4}", "\U{1F0A5}", "\U{1F0A6}", "\U{1F0A7}",
    "\U{1F0A8}", "\U{1F0A9}", "\U{1F0AA}", "\U{1F0AB}", "\U{1F0AD}", "\U{1F0AE}"
  ]

  /** A drawn card. Only `value` takes part in comparisons; `symbol` is shown. */
  datatype Card = Card(value: int, symbol: string)

  /** Number of cards in the table, and so of values a draw can produce. */
  const CARD_COUNT: int := 13

  /** An index the random generator can produce: one position of the table.
      A stream of generator outputs, one element per draw, is a `seq<Index>`. */
  type Index = i: int | 0 <= i < CARD_COUNT

  /** Draws the card at a generator index: its value is the index plus one,
      and its symbol is the table entry for that value. */
  function DrawCard(index: Index): (c: Card)
    ensures 1 <= c.value <= 13
    ensures c.value == index + 1
    ensures c.symbol == CARD_SYMBOLS[c.value - 1]
  {
    Card(index + 1, CARD_SYMBOLS[index])
  }

  /** The table has one entry per rank and no glyph is used twice. */
  lemma TableShape()
    ensures |CARD_SYMBOLS| == CARD_COUNT
    ensures forall i, j :: 0 <= i < j < |CARD_SYMBOLS| ==> CARD_SYMBOLS[i] != CARD_SYMBOLS[j]
  {
  }

  /** The symbol of a drawn card determines the card: the value-to-glyph
      mapping is a bijection on the thirteen values. */
  lemma SymbolDeterminesCard(i: Index, j: Index)
    requires DrawCard(i).symbol == DrawCard(j).symbol
    ensures DrawCard(i) == DrawCard(j)
  {
    TableShape();
  }
}
