/** The status block every classifier produces, and the four colour pairs
    it may carry. */
module Blocks {

  const NormalBackground: string := "#121212"
  const NormalColor: string := "#FFFFFF"
  const SetBackground: string := "#FFDE03"
  const SetColor: string := "#000000"
  const WarnBackground: string := "#FF6F00"
  const WarnColor: string := "#000000"
  const DangerBackground: string := "#B00020"
  const DangerColor: string := "#FAFAFA"

  /** A foreground colour and a background colour. */
  datatype Colors = Colors(color: string, background: string)

  /** The palette: three severities, and Set for an indicator that is on. */
  datatype Palette = Normal | Set | Warn | Danger

  function Pair(p: Palette): Colors {
    match p
    case Normal => Colors(NormalColor, NormalBackground)
    case Set => Colors(SetColor, SetBackground)
    case Warn => Colors(WarnColor, WarnBackground)
    case Danger => Colors(DangerColor, DangerBackground)
  }

  /** The four pairs differ; Set and Warn share their foreground only. */
  lemma PairsDistinct(p: Palette, q: Palette)
    ensures Pair(p) == Pair(q) <==> p == q
  {
  }

  /** One piece of a block's text. Integers are rendered exactly; the text
      Python gives a float is left abstract. */
  datatype Piece =
    | Str(s: string)    // literal text
    | Float(x: real)    // `str(x)` of a float, as `'{}'.format(x)` writes it
    | Fixed2(x: real)   // `'%0.2f' % x`

  type Text = seq<Piece>

  /** One element of the JSON array printed each cycle. */
  datatype Block = Block(
    name: string,
    fullText: Text,
    shortText: Text,
    colors: Colors,
    separator: bool)

  /** A block whose full and short text are the same literal string. */
  function Plain(name: string, text: string, colors: Colors): (b: Block)
    ensures b.fullText == b.shortText == [Str(text)] && b.separator
  {
    Block(name, [Str(text)], [Str(text)], colors, true)
  }
}
