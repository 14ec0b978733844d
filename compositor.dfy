/** `getCombinedCode` (script.js:49-65): the preview document built from the
    three editors by splicing the stylesheet into `<style>`, the markup into
    `<body>` and the script into `<script>`, with no escaping. The template
    literal's line breaks are LF whatever the file's line endings, and its
    indentation is kept verbatim. */
module Compositor {

  const StyleOpen: string := "<style>"
  const StyleClose: string := "</style>"
  const ScriptOpen: string := "<script>"
  /** `<\/script>` in the template literal is `</script>`. */
  const ScriptClose: string := "</script>"
  /** The template up to `<style>`. */
  const HeadText: string := "\n        <html>\n            <head>\n                "
  /** Between `</style>` and the markup. */
  const BodyText: string := "\n            </head>\n            <body>\n                "
  /** Between the markup and `<script>`. */
  const ScriptText: string := "\n                "
  /** The template after `</script>`. */
  const TailText: string := "\n            </body>\n        </html>\n    "

  /** The template up to the stylesheet. */
  const Opening: string := HeadText + StyleOpen
  /** Between the stylesheet and the markup. */
  const AfterStyle: string := StyleClose + BodyText
  /** Between the markup and the script. */
  const BeforeScript: string := ScriptText + ScriptOpen
  /** The template after the script. */
  const Closing: string := ScriptClose + TailText

  /** The document built from the markup, stylesheet and script editors. */
  function CombinedCode(html: string, css: string, js: string): (doc: string)
    ensures |doc| == |Opening| + |css| + |AfterStyle| + |html| + |BeforeScript| + |js| + |Closing|
  {
    Opening + css + AfterStyle + html + BeforeScript + js + Closing
  }

  /** Where the stylesheet starts in the document. */
  function CssStart(): nat { |Opening| }

  /** Where the markup starts, given the stylesheet's length. */
  function HtmlStart(cssLength: nat): nat { |Opening| + cssLength + |AfterStyle| }

  /** Where the script starts, given the stylesheet's and markup's lengths. */
  function JsStart(cssLength: nat, htmlLength: nat): nat {
    HtmlStart(cssLength) + htmlLength + |BeforeScript|
  }

  /** Where each piece of a seven-part concatenation lies, the template
      pieces being split in two around the tags; stated over arbitrary
      strings so that the template text plays no part in the proof. */
  lemma SpliceLayout(head: string, styleOpen: string, css: string, styleClose: string,
                                        body: string, html: string, gap: string, scriptOpen: string,
                                        js: string, scriptClose: string, tail: string)
    ensures var doc := (head + styleOpen) + css + (styleClose + body) + html + (gap + scriptOpen) + js + (scriptClose + tail);
            var c := |head| + |styleOpen|;
            var h := c + |css| + |styleClose| + |body|;
            var j := h + |html| + |gap| + |scriptOpen|;
            && j + |js| + |scriptClose| + |tail| == |doc|
            && doc[c - |styleOpen|..c] == styleOpen
            && doc[c..c + |css|] == css
            && doc[c + |css|..c + |css| + |styleClose|] == styleClose
            && doc[h..h + |html|] == html
            && doc[j - |scriptOpen|..j] == scriptOpen
            && doc[j..j + |js|] == js
            && doc[j + |js|..j + |js| + |scriptClose|] == scriptClose
  {
  }

  /** The stylesheet sits verbatim between `<style>` and `</style>`, then the
      markup verbatim, then the script verbatim between `<script>` and
      `</script>`, in that order. */
  lemma CombinedLayout(html: string, css: string, js: string)
    ensures var doc := CombinedCode(html, css, js);
            var c, h, j := CssStart(), HtmlStart(|css|), JsStart(|css|, |html|);
            && 7 <= c && c + |css| + 8 <= h && h + |html| + 8 <= j && j + |js| + 9 <= |doc|
            && doc[c - 7..c] == "<style>"
            && doc[c..c + |css|] == css
            && doc[c + |css|..c + |css| + 8] == "</style>"
            && doc[h..h + |html|] == html
            && doc[j - 8..j] == "<script>"
            && doc[j..j + |js|] == js
            && doc[j + |js|..j + |js| + 9] == "</script>"
  {
    SpliceLayout(HeadText, StyleOpen, css, StyleClose, BodyText, html, ScriptText, ScriptOpen, js, ScriptClose, TailText);
  }

  /** Reads the three fragments back out of a document, given the lengths
      of the stylesheet and the markup. */
  function Fragments(doc: string, cssLength: nat, htmlLength: nat): (parts: (string, string, string))
    requires JsStart(cssLength, htmlLength) + |Closing| <= |doc|
  {
    var h := HtmlStart(cssLength);
    var j := JsStart(cssLength, htmlLength);
    (doc[h..h + htmlLength], doc[CssStart()..CssStart() + cssLength], doc[j..|doc| - |Closing|])
  }

  /** Nothing is escaped or lost: the three editor contents can be read back
      from the document exactly. */
  lemma FragmentsOfCombined(html: string, css: string, js: string)
    ensures JsStart(|css|, |html|) + |Closing| <= |CombinedCode(html, css, js)|
    ensures Fragments(CombinedCode(html, css, js), |css|, |html|) == (html, css, js)
  {
    var doc := CombinedCode(html, css, js);
    CombinedLayout(html, css, js);
    var j := JsStart(|css|, |html|);
    assert |doc| - |Closing| == j + |js|;
  }

  /** Two documents are equal only if their fragments are, once the
      stylesheet and markup lengths agree. */
  lemma CombinedInjective(html: string, css: string, js: string, html': string, css': string, js': string)
    requires |css| == |css'| && |html| == |html'|
    requires CombinedCode(html, css, js) == CombinedCode(html', css', js')
    ensures html == html' && css == css' && js == js'
  {
    FragmentsOfCombined(html, css, js);
    FragmentsOfCombined(html', css', js');
  }
}
