/** The guard of the splitter's `resize` handler (script.js:179-188): a drag
    to mouse position `clientX` in a body `containerWidth` wide moves the
    divider only when both columns would stay wider than a fifth of the
    body. Widths are percentages of the body, as exact reals. */
module Splitter {

  /** `newEditorWidth > containerWidth * 0.2 && newPreviewWidth > containerWidth * 0.2` */
  predicate DragAccepted(clientX: int, containerWidth: int)
    ensures DragAccepted(clientX, containerWidth) ==> 0 < clientX < containerWidth
  {
    clientX as real > containerWidth as real * 0.2
    && (containerWidth - clientX) as real > containerWidth as real * 0.2
  }

  /** `(width / containerWidth) * 100` */
  function Percent(width: int, containerWidth: int): real
    requires containerWidth > 0
  {
    (width as real / containerWidth as real) * 100.0
  }

  /** Scaling by a positive width keeps a strict comparison in both directions. */
  lemma RatioAbove(a: real, w: real, t: real)
    requires w > 0.0
    ensures a / w > t <==> a > t * w
  {
    var q := a / w;
    assert q * w == a;
    if q > t {
      assert (q - t) * w > 0.0;
    }
    if a > t * w {
      assert (q - t) * w == a - t * w;
    }
  }

  /** An accepted drag needs a body of positive width, and leaves both
      columns wider than 20% and together 100%. */
  lemma AcceptedWidths(clientX: int, containerWidth: int)
    requires DragAccepted(clientX, containerWidth)
    ensures containerWidth > 0
    ensures Percent(clientX, containerWidth) > 20.0
    ensures Percent(containerWidth - clientX, containerWidth) > 20.0
    ensures Percent(clientX, containerWidth) + Percent(containerWidth - clientX, containerWidth) == 100.0
  {
    var w := containerWidth as real;
    var x := clientX as real;
    assert w > 0.0;
    RatioAbove(x, w, 0.2);
    RatioAbove(w - x, w, 0.2);
    SharesSumToOne(x, w);
  }

  /** The two columns' shares of a positive width add up to the whole. */
  lemma SharesSumToOne(x: real, w: real)
    requires w > 0.0
    ensures x / w + (w - x) / w == 1.0
  {
    var p, q := x / w, (w - x) / w;
    assert p * w == x;
    assert q * w == w - x;
    var d := p + q - 1.0;
    assert d * w == p * w + q * w - w == 0.0;
  }

  /** Exactly the drags that leave each column above 20% are accepted. */
  lemma AcceptedIffAboveFifth(clientX: int, containerWidth: int)
    requires containerWidth > 0
    ensures DragAccepted(clientX, containerWidth)
        <==> Percent(clientX, containerWidth) > 20.0 && Percent(containerWidth - clientX, containerWidth) > 20.0
  {
    var w := containerWidth as real;
    var x := clientX as real;
    RatioAbove(x, w, 0.2);
    RatioAbove(w - x, w, 0.2);
  }
}
