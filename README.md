# Live code editor page logic, in Dafny

`script.js` drives a browser code playground: three Ace editors (markup,
stylesheet, script) behind three file tabs, a preview frame that shows the
document composed from the three editors, a dark-mode toggle, a format
button that re-indents the active editor, and a splitter between the editor
column and the preview column.

This project models the logic inside that wiring and proves what it
promises:

- `text.dfy` (`TextLines`): JavaScript's `split('\n')`, `join('\n')`,
  `trim()` and `' '.repeat(n)` on `seq<char>`, with their round trips.
- `formatter.dfy` (`Formatter`): the format button's line re-indenter. The
  three regular-expression tests are explicit predicates; the running
  `indentLevel` is threaded by the specification function `FormatFrom` and
  kept in a loop variable by the method `FormatLines`, which is proved equal
  to it. Proved: line count kept, the shape of every output line, the level
  bound, the opening-before-closing order, and idempotence.
- `compositor.dfy` (`Compositor`): `getCombinedCode`, the document built from
  the three editors, with where each fragment lies and that all three can be
  read back verbatim.
- `panels.dfy` (`Panels`): `switchPanel`'s effect on the panels and tabs and
  the `findIndex` lookup of the active tab.
- `theme.dfy` (`Theme`): one click of the dark-mode toggle as a function of
  the body classes, the editor themes and the icon classes.
- `splitter.dfy` (`Splitter`): the guard of the splitter's `resize` handler,
  over exact reals.
- `playground.dfy` (`Playground`): the page as a `Page` object whose fields
  are the editors' values and themes, the panels' `display`, the tabs' and
  body's and icon's class lists, the preview frame's `srcdoc`, local storage
  and the two column widths. Its methods are the handlers; each states its
  whole new state and keeps `Valid()`: exactly one tab active, its panel
  alone shown, and the preview and stored document built from the current
  editors.

The source file has CRLF line endings, but a template literal turns every
line break into LF, so the composed document uses `"\n"`. The light editor
theme id is `"ace/e/github"`, as the source spells it.

## Model

| member | source | states |
|---|---|---|
| TextLines.Spaces | script.js:148 | `' '.repeat(n)` is `n` characters, all spaces |
| TextLines.TrimShape | script.js:146 | `trim` yields a contiguous piece of the line bordered only by whitespace, with no whitespace at either end |
| TextLines.TrimStartShape | script.js:146 | stripping leading whitespace removes a whitespace prefix and stops at the first other character |
| TextLines.TrimEndShape | script.js:146 | stripping trailing whitespace removes a whitespace suffix and stops at the last other character |
| TextLines.TrimStartSkipsWhitespace | script.js:146 | whitespace put in front of a string is invisible to `trim` |
| TextLines.TrimIndented | script.js:146-155 | trimming an indented, already trimmed line gives the trimmed line back |
| TextLines.Trim | script.js:146 | `line.trim()` strips leading and trailing whitespace: the result has no whitespace at either end and is no longer than the line |
| TextLines.Split | script.js:142 | `split('\n')` gives at least one piece and no piece holds a newline |
| TextLines.SplitCount | script.js:142 | `split('\n')` gives one more piece than there are newlines |
| TextLines.JoinSplit | script.js:142-158 | joining the pieces of a split with `'\n'` gives back the text |
| TextLines.SplitJoin | script.js:142-158 | splitting a join of newline-free lines gives back the lines |
| TextLines.Join | script.js:158 | `lines.join('\n')` starts with the first line and puts a separator between every two lines, so it is at least one character per separator long |
| TextLines.SplitLine | script.js:142 | a newline-free prefix followed by a newline becomes the first piece of the split |
| Formatter.Indent | script.js:148-155 | the indent is `level * 2` whitespace characters |
| Formatter.OpensBlock | script.js:147 | the opening test: the line ends in `{`, `[` or `(`, or ends in an opening tag `<name…>` that is neither a closing tag nor self-closing; any line passing it ends in one of `{[(>` |
| Formatter.ClosesBlock | script.js:151 | the closing test: the line starts with `}`, `]`, `)` or `</`; any line passing it starts with one of `}])<` |
| Formatter.Classify | script.js:147-151 | a line is Opening exactly when it passes the test of line 147, Closing exactly when it fails that test and passes the test of line 151 |
| Formatter.NextLevel | script.js:147-153 | the level after a line rises exactly after an opening line, falls exactly at a closing line when it is above 0, and moves by at most one |
| Formatter.EmitLevel | script.js:148-155 | a line is written at most at the current level, and below it exactly when it is a closing line and the level is above 0 |
| Formatter.FormatFrom | script.js:145-157 | the map yields one output line per input line |
| Formatter.LevelStep | script.js:147-153 | `indentLevel` goes up by one after an opening line, down by one but never below 0 at a closing line, and stays otherwise |
| Formatter.FormatFromAt | script.js:146-156 | output line `i` is the trimmed input line behind two spaces per level: the level before it for an opening or plain line, the lowered level for a closing line |
| Formatter.LevelBound | script.js:143-152 | the level never exceeds the start level plus the number of opening lines so far, which is at most the line number |
| Formatter.FormatFromNoNewline | script.js:145-157 | no output line holds a newline |
| Formatter.FormatLineAt | script.js:142-158 | line `i` of the formatted text is `2 * level_i` spaces and the trimmed input line `i`, with `level_i <= i` |
| Formatter.Format | script.js:141-158 | the text the handler writes back has exactly as many `'\n'`-separated lines as the input, and splitting it gives the map's lines |
| Formatter.FormatFromIdempotent | script.js:145-157 | mapping the map's own output again changes nothing |
| Formatter.FormatIdempotent | script.js:141-158 | formatting formatted text gives the same text |
| Formatter.ElseLineIsNotDedented | script.js:147-153 | `} else {` passes the closing test but is written at the current level and raises the level for the lines after it |
| Formatter.FormatCode | script.js:141-158 | the handler's split, map and join compute `Format` |
| Formatter.FormatLines | script.js:143-157 | the map with `indentLevel` as a loop variable yields exactly the specification's lines |
| Formatter.FormatLine | script.js:146-156 | the callback writes the trimmed line at the emit level of its class and returns the next level |
| Playground.Page.GetCombinedCode | script.js:49-65 | the document is composed from the markup, stylesheet and script editors' current values, and all three can be read back from it |
| Compositor.CombinedCode | script.js:49-65 | the document's length is the template's length plus the three fragments' |
| Compositor.SpliceLayout | script.js:54-64 | in a seven-part concatenation every part lies at the offset the lengths before it give |
| Compositor.CombinedLayout | script.js:54-64 | the stylesheet lies verbatim between `<style>` and `</style>`, then the markup verbatim, then the script verbatim between `<script>` and `</script>`, in that order |
| Compositor.FragmentsOfCombined | script.js:54-64 | nothing is escaped or lost: the three fragments can be read back from the document |
| Compositor.CombinedInjective | script.js:54-64 | equal documents with equal stylesheet and markup lengths come from equal fragments |
| Panels.FirstActive | script.js:137 | `findIndex` (here and at line 111) returns -1 exactly when no tab is active, and otherwise the first active tab |
| Panels.FindActive | script.js:137 | the scan from the first tab returns what `FirstActive` specifies |
| Panels.ShowOnly | script.js:23-26 | after the switch, panel `k` is `block` exactly when `k == i`, every other panel `none` |
| Panels.MarkOnly | script.js:24-27 | after the switch, tab `k` is active exactly when `k == i`, and no tab's other classes change |
| Panels.SwitchThenFind | script.js:22-27 | after `switchPanel(i)` exactly tab `i` is active and the active-tab lookup of lines 111 and 137 returns `i` |
| Panels.OnlyActiveIsFound | script.js:137 | when exactly one tab is active, the lookup returns it |
| Theme.Toggle | script.js:85 | `classList.toggle(name)` reports whether the name is now present, and adds or removes exactly it |
| Theme.Force | script.js:86 | `classList.toggle(name, force)` leaves the name present exactly when forced on, other classes unchanged |
| Theme.ToggleTheme | script.js:84-100 | a click flips `dark-mode`; afterwards `light-mode` is present iff not dark, all three editors carry the dark theme iff dark and the light one otherwise, the icon has `fa-moon` iff dark and `fa-sun` otherwise; other classes are unchanged |
| Theme.ToggleTwiceRestoresMode | script.js:85 | two clicks restore the dark-mode flag from any state |
| Theme.ToggleTwiceRoundTrip | script.js:84-100 | from a state a click leaves behind, two more clicks restore body classes, editor themes and icon |
| Splitter.DragAccepted | script.js:184 | the guard holds only when both new widths exceed a fifth of the body width, which puts the mouse strictly inside a body of positive width |
| Splitter.AcceptedWidths | script.js:184-186 | an accepted drag implies a positive body width and gives both columns more than 20%, together 100% |
| Splitter.AcceptedIffAboveFifth | script.js:184 | a drag is accepted exactly when both resulting columns would exceed 20% |
| Playground.Page.constructor | script.js:2-16 | page load (with `switchPanel(0)` at line 34 and `updatePreview()` at line 78): three editors on the dark theme, panel 0 shown and tab 0 active, and the preview and stored document built from the editors |
| Playground.Page.SwitchPanel | script.js:22-31 | panels and tabs become `ShowOnly`/`MarkOnly` of the old ones, the lookup then finds `i`, nothing else changes, and a current preview makes the page `Valid` |
| Playground.Page.UpdatePreview | script.js:67-75 | the preview frame and the `liveCodeEditorContent` storage entry both receive the composed document; nothing else changes |
| Playground.Page.SetEditorValue | script.js:158 | setting an editor's text replaces that editor's value only, and its change listener (line 10) brings the preview up to date |
| Playground.Page.FormatActiveEditor | script.js:135-159 | the active tab's editor gets `Format` of its text, the other editors keep theirs, and the page stays `Valid` |
| Playground.Page.ToggleTheme | script.js:84-101 | the body classes, editor themes and icon classes become `Theme.ToggleTheme` of the old ones; the rest of the page is unchanged |
| Playground.Page.Resize | script.js:179-188 | both widths become the mouse position's percentages when the guard accepts, and both stay as they were otherwise |

## Left out

- Ace editor internals (`ace.edit`, `setMode`, highlight and margin options, cursor placement by `setValue`, every `resize()` call): the editors are their values and theme ids only.
- The live-preview button (script.js:40-46): it toggles one body class and resizes the editors; it is DOM plumbing.
- The upload button and the `FileReader` path (script.js:104-130): asynchronous browser I/O.
- Event-listener registration for the splitter's mousedown, mousemove and mouseup (script.js:167-177) and the `querySelectorAll`/`getElementById` lookups.
- The preview frame and local storage are plain fields; rendering the document and the separate live page that reads the stored copy are not modelled.
- Splitter.DragAccepted: widths are exact reals and the threshold is exactly 0.2; floating-point rounding and the `'%'` strings written to `style.width` are not modelled.
- Playground.Page.SwitchPanel: an index outside 0..2 is a precondition; in the browser it would hide every panel and clear every tab's `active` class, then throw at `allPanels[panelIndex]` (script.js:23-26).
- TextLines.Trim: the whitespace set is fixed to the ECMAScript WhiteSpace and LineTerminator characters of current Unicode; the regular expressions are explicit predicates, not a regex engine.
