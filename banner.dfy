/**
 * The banner `print_header` draws: three figlet renderings ("AI", "ZEN"
 * and "LOVE") set side by side row by row, each in its own colour, four
 * spaces apart. The figlet renderings themselves come from a font library
 * and are inputs here.
 */
module Banner {
  import opened Ascii

  /** The gap between two banners on a row. */
  const Spacing: string := "    "

  /** `lines + [""] * (n - len(lines))`: the lines, then empty lines up to `n`. */
  function Pad(lines: seq<string>, n: nat): (r: seq<string>)
    requires |lines| <= n
    ensures |r| == n
    ensures forall i :: 0 <= i < n ==> r[i] == LineAt(lines, i)
  {
    lines + seq(n - |lines|, _ => "")
  }

  /** Line `i` of a banner, or nothing below its last line. */
  function LineAt(lines: seq<string>, i: nat): string {
    if i < |lines| then lines[i] else ""
  }

  /** `max(a, b, c)`. */
  function Max3(a: nat, b: nat, c: nat): (m: nat)
    ensures a <= m && b <= m && c <= m
    ensures m == a || m == b || m == c
  {
    if a >= b && a >= c then a else if b >= c then b else c
  }

  /** One merged row: the AI part in blue, the ZEN part in green, the LOVE part in red. */
  function Row(ai: string, zen: string, love: string): string {
    "[bright_blue]" + ai + "[/bright_blue]" + Spacing
    + "[bright_green]" + zen + "[/bright_green]" + Spacing
    + "[bright_red]" + love + "[/bright_red]"
  }

  /**
   * The rows of the merged banner, for banners given as their lines: as
   * many rows as the tallest banner has lines.
   */
  function Rows(ai: seq<string>, zen: seq<string>, love: seq<string>): seq<string> {
    seq(Max3(|ai|, |zen|, |love|), i requires 0 <= i => Row(LineAt(ai, i), LineAt(zen, i), LineAt(love, i)))
  }

  /**
   * The merge in `print_header`: split each rendering into lines, pad them
   * to the same count, colour and join each row, and join the rows with
   * newlines. Read back line by line, the header is exactly the rows.
   */
  method MergeHeader(headerAi: string, headerZen: string, headerLove: string) returns (coloredHeader: string)
    ensures Split(coloredHeader, '\n') == Rows(Split(headerAi, '\n'), Split(headerZen, '\n'), Split(headerLove, '\n'))
  {
    var aiLines := Split(headerAi, '\n');
    var zenLines := Split(headerZen, '\n');
    var loveLines := Split(headerLove, '\n');
    ghost var rows := Rows(aiLines, zenLines, loveLines);
    var maxLines := Max3(|aiLines|, |zenLines|, |loveLines|);
    var ai, zen, love := Pad(aiLines, maxLines), Pad(zenLines, maxLines), Pad(loveLines, maxLines);
    var coloredLines := [];
    for i := 0 to maxLines
      invariant coloredLines == rows[..i]
    {
      coloredLines := coloredLines + [Row(ai[i], zen[i], love[i])];
    }
    assert coloredLines == rows;
    coloredHeader := Join(coloredLines, '\n');
    RowsSingleLine(aiLines, zenLines, loveLines);
    SplitJoin(coloredLines, '\n');
  }

  /** A row holds no line break when none of its three parts does. */
  lemma RowSingleLine(ai: string, zen: string, love: string)
    requires '\n' !in ai && '\n' !in zen && '\n' !in love
    ensures '\n' !in Row(ai, zen, love)
  {
    var row := Row(ai, zen, love);
    assert row == "[bright_blue]" + ai + ("[/bright_blue]" + Spacing + "[bright_green]")
      + zen + ("[/bright_green]" + Spacing + "[bright_red]") + love + "[/bright_red]";
  }

  /**
   * The rows of banners that are split into lines hold no line break, and
   * there is at least one of them.
   */
  lemma RowsSingleLine(ai: seq<string>, zen: seq<string>, love: seq<string>)
    requires |ai| >= 1
    requires forall i :: 0 <= i < |ai| ==> '\n' !in ai[i]
    requires forall i :: 0 <= i < |zen| ==> '\n' !in zen[i]
    requires forall i :: 0 <= i < |love| ==> '\n' !in love[i]
    ensures |Rows(ai, zen, love)| >= 1
    ensures forall i :: 0 <= i < |Rows(ai, zen, love)| ==> '\n' !in Rows(ai, zen, love)[i]
  {
    forall i | 0 <= i < Max3(|ai|, |zen|, |love|)
      ensures '\n' !in Rows(ai, zen, love)[i]
    {
      RowSingleLine(LineAt(ai, i), LineAt(zen, i), LineAt(love, i));
    }
  }
}
