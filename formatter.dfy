/** The format button's line re-indenter (script.js:141-158): every line of
    the active editor is trimmed and indented by two spaces per open block,
    where a line opens a block when it ends in an opening bracket or an
    unclosed opening tag, and closes one when it starts with a closing
    bracket or a closing tag. */
module Formatter {
  import opened TextLines

  const IndentSize := 2

  /** `' '.repeat(level * indentSize)` */
  function Indent(level: nat): (r: string)
    ensures |r| == level * IndentSize && AllWhitespace(r)
  {
    Spaces(level * IndentSize)
  }

  /** `[a-zA-Z0-9]` */
  predicate IsTagNameChar(c: char) {
    ('a' <= c <= 'z') || ('A' <= c <= 'Z') || ('0' <= c <= '9')
  }

  /** `[a-zA-Z0-9]+` */
  predicate IsTagName(s: string) {
    |s| > 0 && forall k :: 0 <= k < |s| ==> IsTagNameChar(s[k])
  }

  /** `/[\{\[\(]$/` */
  predicate EndsWithOpenBracket(line: string) {
    |line| > 0 && line[|line| - 1] in "{[("
  }

  /** `/<[a-zA-Z0-9]+[^>]*>$/`: a `<`, a tag-name character, then anything
      without `>` up to the `>` that ends the line. */
  predicate EndsWithOpenTag(line: string) {
    && |line| >= 3
    && line[|line| - 1] == '>'
    && exists i :: 0 <= i < |line| - 2 && OpenTagStartsAt(line, i)
  }

  /** The `<` at `i` starts a match of `<[a-zA-Z0-9]+[^>]*` that runs up to
      the last character of the line. */
  predicate OpenTagStartsAt(line: string, i: nat)
    requires i < |line| - 2
  {
    line[i] == '<' && IsTagNameChar(line[i + 1]) && '>' !in line[i + 1..|line| - 1]
  }

  /** `/<\/[a-zA-Z0-9]+>$/` */
  predicate EndsWithCloseTag(line: string) {
    && |line| >= 4
    && line[|line| - 1] == '>'
    && exists i :: 0 <= i < |line| - 3 && CloseTagStartsAt(line, i)
  }

  /** The `<` at `i` starts a match of `<\/[a-zA-Z0-9]+` that runs up to
      the last character of the line. */
  predicate CloseTagStartsAt(line: string, i: nat)
    requires i < |line| - 3
  {
    line[i] == '<' && line[i + 1] == '/' && IsTagName(line[i + 2..|line| - 1])
  }

  /** `/\/>$/` */
  predicate EndsWithSelfClose(line: string) {
    |line| >= 2 && line[|line| - 2] == '/' && line[|line| - 1] == '>'
  }

  /** `/^[\}\]\)]/` */
  predicate StartsWithCloseBracket(line: string) {
    |line| > 0 && line[0] in "}])"
  }

  /** `/^<\//` */
  predicate StartsWithCloseTag(line: string) {
    |line| >= 2 && line[0] == '<' && line[1] == '/'
  }

  /** The test of script.js:147; `&&` binds tighter than `||`. */
  predicate OpensBlock(line: string)
    ensures OpensBlock(line) ==> |line| > 0 && line[|line| - 1] in "{[(>"
  {
    || EndsWithOpenBracket(line)
    || (EndsWithOpenTag(line) && !EndsWithCloseTag(line) && !EndsWithSelfClose(line))
  }

  /** The test of script.js:151. */
  predicate ClosesBlock(line: string)
    ensures ClosesBlock(line) ==> |line| > 0 && line[0] in "}])<"
  {
    StartsWithCloseBracket(line) || StartsWithCloseTag(line)
  }

  datatype LineKind = Opening | Closing | Other

  /** The branch a trimmed line takes; the opening test is tried first. */
  function Classify(line: string): (k: LineKind)
    ensures k == Opening <==> OpensBlock(line)
    ensures k == Closing <==> !OpensBlock(line) && ClosesBlock(line)
  {
    if OpensBlock(line) then Opening
    else if ClosesBlock(line) then Closing
    else Other
  }

  /** The indent level in force after a line of the given kind:
      `indentLevel++` or `indentLevel = Math.max(0, indentLevel - 1)`. */
  function NextLevel(level: nat, k: LineKind): (r: nat)
    ensures r > level <==> k == Opening
    ensures r < level <==> k == Closing && level > 0
    ensures r <= level + 1 && level <= r + 1
  {
    match k
    case Opening => level + 1
    case Closing => if level == 0 then 0 else level - 1
    case Other => level
  }

  /** The level a line is written at: an opening line before the increment,
      a closing line after the decrement. */
  function EmitLevel(level: nat, k: LineKind): (r: nat)
    ensures r <= level
    ensures r < level <==> k == Closing && level > 0
  {
    if k == Closing then NextLevel(level, k) else level
  }

  /** The mapping callback of script.js:145-157 applied to the remaining
      lines, threading the captured `indentLevel` from one line to the next. */
  function FormatFrom(lines: seq<string>, level: nat): (r: seq<string>)
    ensures |r| == |lines|
  {
    if lines == [] then []
    else
      var line := Trim(lines[0]);
      var k := Classify(line);
      [Indent(EmitLevel(level, k)) + line] + FormatFrom(lines[1..], NextLevel(level, k))
  }

  /** The text the format button writes back into the editor. It has
      exactly as many newline-separated lines as the input, and they are the
      map's lines. */
  function Format(code: string): (r: string)
    ensures Split(r) == FormatFrom(Split(code), 0)
    ensures |Split(r)| == |Split(code)|
  {
    var formattedLines := FormatFrom(Split(code), 0);
    FormatFromNoNewline(Split(code), 0);
    SplitJoin(formattedLines);
    Join(formattedLines)
  }

  /** `indentLevel` just before line `i` is processed, starting from `level`. */
  function LevelAt(lines: seq<string>, level: nat, i: nat): nat
    requires i <= |lines|
  {
    if i == 0 then level
    else LevelAt(lines[1..], NextLevel(level, Classify(Trim(lines[0]))), i - 1)
  }

  /** The number of opening lines in `lines`. */
  function Openings(lines: seq<string>): nat {
    if lines == [] then 0
    else (if Classify(Trim(lines[0])) == Opening then 1 else 0) + Openings(lines[1..])
  }

  /** `indentLevel` moves from line to line exactly as the two branches of
      script.js:147-153 say: up by one after an opening line, down by one but
      never below zero before a closing line, unchanged otherwise. */
  lemma {:induction false} LevelStep(lines: seq<string>, level: nat, i: nat)
    requires i < |lines|
    ensures var before := LevelAt(lines, level, i);
            LevelAt(lines, level, i + 1) == match Classify(Trim(lines[i]))
              case Opening => before + 1
              case Closing => if before == 0 then 0 else before - 1
              case Other => before
  {
    if i > 0 {
      LevelStep(lines[1..], NextLevel(level, Classify(Trim(lines[0]))), i - 1);
    }
  }

  /** Line `i` of the map's result is line `i` of the input, trimmed, behind
      two spaces per level: the level before it when it opens a block or is
      plain, the level after the decrement when it closes one. */
  lemma {:induction false} FormatFromAt(lines: seq<string>, level: nat, i: nat)
    requires i < |lines|
    ensures var line := Trim(lines[i]);
            FormatFrom(lines, level)[i]
            == Indent(EmitLevel(LevelAt(lines, level, i), Classify(line))) + line
  {
    if i > 0 {
      FormatFromAt(lines[1..], NextLevel(level, Classify(Trim(lines[0]))), i - 1);
    }
  }

  /** The level never exceeds the starting level plus the number of opening
      lines seen so far; from zero, it is at most the line number. */
  lemma {:induction false} LevelBound(lines: seq<string>, level: nat, i: nat)
    requires i <= |lines|
    ensures LevelAt(lines, level, i) <= level + Openings(lines[..i])
    ensures Openings(lines[..i]) <= i
  {
    if i > 0 {
      var k := Classify(Trim(lines[0]));
      LevelBound(lines[1..], NextLevel(level, k), i - 1);
      assert lines[..i][1..] == lines[1..][..i - 1];
      assert lines[..i][0] == lines[0];
    }
  }

  /** No line of the map's result contains a newline when no input line does. */
  lemma {:induction false} FormatFromNoNewline(lines: seq<string>, level: nat)
    requires forall k :: 0 <= k < |lines| ==> '\n' !in lines[k]
    ensures forall k :: 0 <= k < |FormatFrom(lines, level)| ==> '\n' !in FormatFrom(lines, level)[k]
  {
    forall k | 0 <= k < |lines|
      ensures '\n' !in FormatFrom(lines, level)[k]
    {
      FormatFromAt(lines, level, k);
      IndentedLineNoNewline(EmitLevel(LevelAt(lines, level, k), Classify(Trim(lines[k]))), lines[k]);
    }
  }

  /** An indented, trimmed line holds a newline only if the raw line did. */
  lemma IndentedLineNoNewline(level: nat, rawLine: string)
    requires '\n' !in rawLine
    ensures '\n' !in Indent(level) + Trim(rawLine)
  {
    TrimKeepsNoNewline(rawLine);
    var pad, line := Indent(level), Trim(rawLine);
    forall c | 0 <= c < |pad + line| ensures (pad + line)[c] != '\n' {
      if c < |pad| {
        assert (pad + line)[c] == pad[c] == ' ';
      } else {
        assert (pad + line)[c] == line[c - |pad|];
      }
    }
  }

  /** Line `i` of the formatted text is `indentLevel_i * 2` spaces followed
      by line `i` of the input, trimmed, where `indentLevel_i` is the level
      the running counter holds when line `i` is written. */
  lemma FormatLineAt(code: string, i: nat)
    requires i < |Split(code)|
    ensures var lines := Split(code);
            var line := Trim(lines[i]);
            && i < |Split(Format(code))|
            && Split(Format(code))[i]
               == Spaces(EmitLevel(LevelAt(lines, 0, i), Classify(line)) * IndentSize) + line
            && EmitLevel(LevelAt(lines, 0, i), Classify(line)) <= i
  {
    FormatFromAt(Split(code), 0, i);
    LevelBound(Split(code), 0, i);
  }

  /** Re-running the map over its own output changes nothing: every output
      line trims back to the same text, so it is classified the same and
      written at the same level. */
  lemma {:induction false} FormatFromIdempotent(lines: seq<string>, level: nat)
    ensures FormatFrom(FormatFrom(lines, level), level) == FormatFrom(lines, level)
  {
    if lines != [] {
      var line := Trim(lines[0]);
      var k := Classify(line);
      var out := FormatFrom(lines, level);
      TrimIndented(EmitLevel(level, k) * IndentSize, lines[0]);
      assert Trim(out[0]) == line;
      assert out[1..] == FormatFrom(lines[1..], NextLevel(level, k));
      FormatFromIdempotent(lines[1..], NextLevel(level, k));
    }
  }

  /** Pressing the format button twice gives the same text as pressing it once. */
  lemma FormatIdempotent(code: string)
    ensures Format(Format(code)) == Format(code)
  {
    FormatFromIdempotent(Split(code), 0);
  }

  /** The opening test runs first, so `} else {`, which also passes the
      closing test, opens a block: it is written at the current level, not
      one below, and the lines after it move one level further in. */
  lemma ElseLineIsNotDedented(lines: seq<string>, level: nat)
    requires lines != [] && Trim(lines[0]) == "} else {"
    ensures ClosesBlock(Trim(lines[0]))
    ensures FormatFrom(lines, level)[0] == Indent(level) + "} else {"
    ensures FormatFrom(lines, level)[1..] == FormatFrom(lines[1..], level + 1)
  {
  }

  /** The handler as the source writes it: split, map every line through
      the callback that updates `indentLevel` as it goes, join. */
  method FormatCode(code: string) returns (formatted: string)
    ensures formatted == Format(code)
  {
    var lines := Split(code);
    var formattedLines := FormatLines(lines);
    formatted := Join(formattedLines);
  }

  /** The `lines.map(...)` of script.js:145-157, with the captured
      `indentLevel` as a loop variable. */
  method FormatLines(lines: seq<string>) returns (formattedLines: seq<string>)
    ensures formattedLines == FormatFrom(lines, 0)
  {
    var indentLevel: nat := 0;
    formattedLines := [];
    var i := 0;
    while i < |lines|
      invariant 0 <= i <= |lines|
      invariant formattedLines + FormatFrom(lines[i..], indentLevel) == FormatFrom(lines, 0)
    {
      var indentedLine;
      indentedLine, indentLevel := FormatLine(lines[i], indentLevel);
      assert lines[i..][1..] == lines[i + 1..];
      formattedLines := formattedLines + [indentedLine];
      i := i + 1;
    }
  }

  /** The callback itself: trim, test, write the line at the current level,
      and move the level for the lines after it. */
  method FormatLine(rawLine: string, indentLevel: nat) returns (indentedLine: string, newLevel: nat)
    ensures var line := Trim(rawLine);
            && indentedLine == Indent(EmitLevel(indentLevel, Classify(line))) + line
            && newLevel == NextLevel(indentLevel, Classify(line))
  {
    var line := Trim(rawLine);
    newLevel := indentLevel;
    if OpensBlock(line) {
      indentedLine := Indent(newLevel) + line;
      newLevel := newLevel + 1;
    } else if ClosesBlock(line) {
      newLevel := if newLevel - 1 < 0 then 0 else newLevel - 1;
      indentedLine := Indent(newLevel) + line;
    } else {
      indentedLine := Indent(newLevel) + line;
    }
  }
}
