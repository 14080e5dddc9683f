/**
 Model of heading.py: a console heading is the level's top margin of
 newlines, the level's ANSI style escape, the title centred to the level's
 width, and the level's bottom margin of newlines. An unknown level prints
 an error line and exits with status 1.
 */
module Heading {
  import opened Common

  /** One row of the level table: margins, width and style escape. */
  datatype Level = Level(top: nat, bottom: nat, width: nat, style: string)

  datatype HeadingResult =
    | Text(text: string)
    /** The line printed to standard output, and how the process exits. */
    | Invalid(printed: string, exit: ExitStatus)

  const Esc: char := '\U{1B}'

  /** The message of the invalid-level branch, as written. */
  const InvalidLevelMessage := "Invalid option. Choose between 1 and 4."

  /** The table of levels, keyed by the strings "1" to "6". */
  function LevelSpec(level: string): (r: Option<Level>)
    ensures r.Some? <==> level in {"1", "2", "3", "4", "5", "6"}
    ensures r.Some? ==> |r.value.style| > 0 && r.value.style[0] == Esc
    ensures r.Some? ==> r.value.width >= 35
  {
    if level == "1" then Some(Level(2, 1, 110, "\U{1B}[1;38;2;255;255;255;48;2;150;0;170m"))
    else if level == "2" then Some(Level(1, 1, 95, "\U{1B}[1;38;2;255;255;255;48;2;25;100;175m"))
    else if level == "3" then Some(Level(1, 1, 80, "\U{1B}[1;38;2;255;255;255;48;2;100;160;0m"))
    else if level == "4" then Some(Level(1, 0, 65, "\U{1B}[1;38;2;255;255;255;48;2;200;150;0m"))
    else if level == "5" then Some(Level(1, 0, 50, "\U{1B}[1;38;2;255;255;255;48;2;240;100;0m"))
    else if level == "6" then Some(Level(1, 0, 35, "\U{1B}[1;38;2;255;255;255;48;2;220;0;35m"))
    else None
  }

  function Repeat(c: char, n: nat): (s: string)
    ensures |s| == n && forall i :: 0 <= i < n ==> s[i] == c
  {
    seq(n, _ => c)
  }

  function Max(a: nat, b: nat): nat { if a < b then b else a }

  /** The left padding CPython's `str.center` uses: half the margin, plus
      one when both the margin and the width are odd. */
  function LeftPad(len: nat, width: nat): nat {
    if len >= width then 0
    else var marg := width - len; marg / 2 + (if marg % 2 == 1 && width % 2 == 1 then 1 else 0)
  }

  /** `s.center(width)`: spaces on both sides up to `width`, never cut. */
  function Center(s: string, width: nat): (r: string)
    ensures |r| == Max(|s|, width)
    ensures |s| >= width ==> r == s
  {
    if |s| >= width then s
    else
      var left := LeftPad(|s|, width);
      Repeat(' ', left) + s + Repeat(' ', width - |s| - left)
  }

  /** A centred string has length max(|s|, width); it is `s` with only spaces
      around it, and the two pads differ by at most one space, the extra one
      going left exactly when the width is odd. */
  lemma CenterShape(s: string, width: nat)
    ensures |Center(s, width)| == Max(|s|, width)
    ensures LeftPad(|s|, width) + |s| <= |Center(s, width)|
    ensures Center(s, width)[LeftPad(|s|, width)..LeftPad(|s|, width) + |s|] == s
    ensures forall i :: 0 <= i < LeftPad(|s|, width) ==> Center(s, width)[i] == ' '
    ensures forall i :: LeftPad(|s|, width) + |s| <= i < |Center(s, width)| ==> Center(s, width)[i] == ' '
    ensures var right := |Center(s, width)| - |s| - LeftPad(|s|, width);
      && LeftPad(|s|, width) <= right + 1
      && right <= LeftPad(|s|, width) + 1
      && (LeftPad(|s|, width) > right <==> (width % 2 == 1 && (width - |s|) % 2 == 1 && |s| < width))
  {
    var r := Center(s, width);
    var left := LeftPad(|s|, width);
    if |s| < width {
      assert r == Repeat(' ', left) + s + Repeat(' ', width - |s| - left);
      assert r[left..left + |s|] == s;
    }
  }

  /** The last character of a centred string is a padding space or the last
      character of `s`. */
  lemma CenterLast(s: string, width: nat)
    requires width > 0
    ensures |Center(s, width)| > 0
    ensures Center(s, width)[|Center(s, width)| - 1] == ' '
         || (|s| > 0 && Center(s, width)[|Center(s, width)| - 1] == s[|s| - 1])
  {
    CenterShape(s, width);
  }

  /** The heading for `level`, or the error line and status 1 when the level
      is not in the table. */
  function Heading(level: string, title: string): (r: HeadingResult)
    ensures r.Invalid? <==> LevelSpec(level).None?
    ensures r.Invalid? ==> r.printed == InvalidLevelMessage && r.exit == Code(1)
    ensures r.Text? ==> var l := LevelSpec(level).value;
      |r.text| == l.top + |l.style| + Max(|title|, l.width) + l.bottom
  {
    match LevelSpec(level)
    case None => Invalid(InvalidLevelMessage, Code(1))
    case Some(l) => Text(Repeat('\n', l.top) + l.style + Center(title, l.width) + Repeat('\n', l.bottom))
  }

  /** Only the keys "1" to "6" give a heading; anything else prints the
      error line and exits with status 1. */
  lemma HeadingRejectsUnknownLevel(level: string, title: string)
    ensures Heading(level, title).Invalid? <==> level !in {"1", "2", "3", "4", "5", "6"}
    ensures Heading(level, title).Invalid? ==>
      Heading(level, title).exit.ProcessStatus() == 1 && Heading(level, title).printed == InvalidLevelMessage
  {
  }

  /** A heading starts with exactly `top` newlines (the style escape follows),
      ends with `bottom` newlines, and between them holds the style escape
      and the centred title; when the title does not itself end with a
      newline the bottom margin is exactly `bottom` newlines long. */
  lemma HeadingLayout(level: string, title: string)
    requires LevelSpec(level).Some?
    ensures var l := LevelSpec(level).value;
      var t := Heading(level, title).text;
      && |t| == l.top + |l.style| + Max(|title|, l.width) + l.bottom
      && t[..l.top] == Repeat('\n', l.top)
      && t[l.top] != '\n'
      && t[|t| - l.bottom..] == Repeat('\n', l.bottom)
      && t[l.top..|t| - l.bottom] == l.style + Center(title, l.width)
      && ((|title| == 0 || title[|title| - 1] != '\n') ==> t[|t| - l.bottom - 1] != '\n')
  {
    var l := LevelSpec(level).value;
    CenterShape(title, l.width);
    CenterLast(title, l.width);
    Framed(Repeat('\n', l.top), l.style, Center(title, l.width), Repeat('\n', l.bottom));
  }

  /** Where the four parts of a heading sit in their concatenation. */
  lemma Framed(top: string, style: string, c: string, bottom: string)
    requires |style| > 0 && |c| > 0
    ensures var t := top + style + c + bottom;
      && t[..|top|] == top
      && t[|top|] == style[0]
      && t[|t| - |bottom|..] == bottom
      && t[|top|..|t| - |bottom|] == style + c
      && t[|t| - |bottom| - 1] == c[|c| - 1]
  {
  }

  /** The level widths are 125 - 15 * k for level k, so 110, 95, 80, 65, 50,
      35, strictly decreasing with the level. */
  lemma WidthsDecrease(i: nat, j: nat)
    requires 1 <= i < j <= 6
    ensures LevelSpec(NatToString(i)).Some? && LevelSpec(NatToString(i)).value.width == 125 - 15 * i
    ensures LevelSpec(NatToString(j)).Some? && LevelSpec(NatToString(j)).value.width == 125 - 15 * j
    ensures LevelSpec(NatToString(i)).value.width > LevelSpec(NatToString(j)).value.width
  {
    LevelWidth(i);
    LevelWidth(j);
  }

  lemma LevelWidth(k: nat)
    requires 1 <= k <= 6
    ensures LevelSpec(NatToString(k)).Some? && LevelSpec(NatToString(k)).value.width == 125 - 15 * k
  {
    assert NatToString(k) == [Digit(k)];
    if k == 1 { assert NatToString(k) == "1"; }
    else if k == 2 { assert NatToString(k) == "2"; }
    else if k == 3 { assert NatToString(k) == "3"; }
    else if k == 4 { assert NatToString(k) == "4"; }
    else if k == 5 { assert NatToString(k) == "5"; }
    else { assert NatToString(k) == "6"; }
  }

  /** The decimal level keys the table accepts are exactly 1 to 6. */
  lemma AcceptedLevels(k: nat)
    ensures LevelSpec(NatToString(k)).Some? <==> 1 <= k <= 6
  {
    if 1 <= k <= 6 {
      LevelWidth(k);
    } else if k < 10 {
      assert NatToString(k) == [Digit(k)];
    } else {
      assert |NatToString(k)| >= 2 by { assert NatToString(k) == NatToString(k / 10) + [Digit(k % 10)]; }
    }
  }

  /** As written, the error message names 4 as the highest level, yet level 5
      is accepted: the message understates the table. */
  lemma InvalidMessageUnderstatesLevels(title: string)
    ensures InvalidLevelMessage == "Invalid option. Choose between 1 and " + NatToString(4) + "."
    ensures Heading(NatToString(5), title).Text?
  {
    assert NatToString(4) == "4";
    AcceptedLevels(5);
  }

  /** The heading with an error message that names the range the table
      really accepts. */
  function HeadingIntended(level: string, title: string): HeadingResult {
    match Heading(level, title)
    case Invalid(_, exit) => Invalid("Invalid option. Choose between 1 and " + NatToString(6) + ".", exit)
    case text => text
  }

  /** With the corrected message, a decimal level k is accepted exactly when
      it lies in the range the message names, and valid levels are formatted
      as before. */
  lemma IntendedMessageMatchesLevels(k: nat, title: string)
    ensures HeadingIntended(NatToString(k), title).Text? <==> 1 <= k <= 6
    ensures HeadingIntended(NatToString(k), title).Invalid? ==>
      HeadingIntended(NatToString(k), title).printed == "Invalid option. Choose between 1 and " + NatToString(6) + "."
    ensures HeadingIntended(NatToString(k), title).Text? ==> HeadingIntended(NatToString(k), title) == Heading(NatToString(k), title)
  {
    AcceptedLevels(k);
  }
}
