/** The page's mutable state and the handlers that change it (script.js):
    the three editors, the panels and tabs, the body and icon class lists,
    the preview frame with its local-storage copy, and the two column widths. */
module Playground {
  import Formatter
  import Compositor
  import Panels
  import Theme
  import Splitter

  /** Editors, panels and tabs come in this order: markup, stylesheet, script. */
  const EditorCount: nat := 3

  /** The local-storage key the composed document is saved under. */
  const StorageKey: string := "liveCodeEditorContent"

  class Page {
    /** `getValue()` of the markup, stylesheet and script editors. */
    var editorValues: seq<string>
    /** The theme id last given to each editor with `setTheme`. */
    var editorThemes: seq<string>
    /** `style.display` of each editor panel. */
    var panels: seq<string>
    /** `classList` of each file tab. */
    var tabs: seq<set<string>>
    /** `document.body.classList` */
    var body: set<string>
    /** `classList` of the theme icon. */
    var icon: set<string>
    /** `srcdoc` of the preview frame. */
    var previewSrcdoc: string
    /** `localStorage` */
    var storage: map<string, string>
    /** `style.width` of the editor and preview columns, in percent. */
    var editorWidth: real
    var previewWidth: real

    /** One value and one theme per editor, one panel and one tab per editor. */
    ghost predicate WellFormed()
      reads this
    {
      |editorValues| == EditorCount && |editorThemes| == EditorCount
      && |panels| == EditorCount && |tabs| == EditorCount
    }

    /** `getCombinedCode()` (script.js:49-65) over the current editor contents. */
    function GetCombinedCode(): (doc: string)
      reads this
      requires WellFormed()
      ensures Compositor.JsStart(|editorValues[1]|, |editorValues[0]|) + |Compositor.Closing| <= |doc|
      ensures Compositor.Fragments(doc, |editorValues[1]|, |editorValues[0]|)
              == (editorValues[0], editorValues[1], editorValues[2])
    {
      Compositor.FragmentsOfCombined(editorValues[0], editorValues[1], editorValues[2]);
      Compositor.CombinedCode(editorValues[0], editorValues[1], editorValues[2])
    }

    /** The preview frame and the stored copy both hold the document built
        from the current editor contents. */
    ghost predicate PreviewCurrent()
      reads this
      requires WellFormed()
    {
      previewSrcdoc == GetCombinedCode()
      && StorageKey in storage && storage[StorageKey] == previewSrcdoc
    }

    /** The state every handler keeps once the page has loaded: exactly one
        tab is active, its panel alone is shown, and the preview is current. */
    ghost predicate Valid()
      reads this
    {
      && WellFormed()
      && 0 <= Panels.FirstActive(tabs)
      && Panels.OnlyActive(tabs, Panels.FirstActive(tabs))
      && panels == Panels.ShowOnly(panels, Panels.FirstActive(tabs))
      && PreviewCurrent()
    }

    /** The theme toggle's part of the state. */
    function Look(): Theme.Look
      reads this
    {
      Theme.Look(body, editorThemes, icon)
    }

    /** Page load: three editors on the dark theme (script.js:2-16), panel 0
        selected (script.js:34), a first preview (script.js:78). The editors'
        initial text, the panels, tabs, class lists, storage and widths are
        whatever the page markup and the browser start with. */
    constructor (html: string, css: string, js: string,
                 panels0: seq<string>, tabs0: seq<set<string>>,
                 body0: set<string>, icon0: set<string>,
                 srcdoc0: string, storage0: map<string, string>,
                 editorWidth0: real, previewWidth0: real)
      requires |panels0| == EditorCount && |tabs0| == EditorCount
      ensures Valid()
      ensures editorValues == [html, css, js]
      ensures editorThemes == [Theme.DarkTheme, Theme.DarkTheme, Theme.DarkTheme]
      ensures Panels.FirstActive(tabs) == 0
      ensures panels == Panels.ShowOnly(panels0, 0) && tabs == Panels.MarkOnly(tabs0, 0)
      ensures body == body0 && icon == icon0
      ensures storage == storage0[StorageKey := Compositor.CombinedCode(html, css, js)]
      ensures editorWidth == editorWidth0 && previewWidth == previewWidth0
    {
      editorValues := [html, css, js];
      editorThemes := [Theme.DarkTheme, Theme.DarkTheme, Theme.DarkTheme];
      panels := panels0;
      tabs := tabs0;
      body := body0;
      icon := icon0;
      previewSrcdoc := srcdoc0;
      storage := storage0;
      editorWidth := editorWidth0;
      previewWidth := previewWidth0;
      new;
      SwitchPanel(0);
      UpdatePreview();
      Panels.SwitchThenFind(tabs0, 0);
    }

    /** `switchPanel(panelIndex)` (script.js:22-31): hide every panel and
        clear every tab, then show panel `i` and mark tab `i` active. The
        editor `resize()` is layout only and not modelled. */
    method SwitchPanel(i: nat)
      requires WellFormed() && i < EditorCount
      modifies this
      ensures WellFormed()
      ensures panels == Panels.ShowOnly(old(panels), i)
      ensures tabs == Panels.MarkOnly(old(tabs), i)
      ensures Panels.FirstActive(tabs) == i
      ensures old(PreviewCurrent()) ==> Valid()
      ensures editorValues == old(editorValues) && editorThemes == old(editorThemes)
      ensures body == old(body) && icon == old(icon)
      ensures previewSrcdoc == old(previewSrcdoc) && storage == old(storage)
      ensures editorWidth == old(editorWidth) && previewWidth == old(previewWidth)
    {
      var k := 0;
      while k < |panels|
        invariant 0 <= k <= |panels| == EditorCount
        invariant forall m :: 0 <= m < k ==> panels[m] == Panels.Hidden
        invariant tabs == old(tabs) && editorValues == old(editorValues)
        invariant editorThemes == old(editorThemes)
        invariant body == old(body) && icon == old(icon)
        invariant previewSrcdoc == old(previewSrcdoc) && storage == old(storage)
        invariant editorWidth == old(editorWidth) && previewWidth == old(previewWidth)
      {
        panels := panels[k := Panels.Hidden];
        k := k + 1;
      }
      k := 0;
      while k < |tabs|
        invariant 0 <= k <= |tabs| == EditorCount
        invariant forall m :: 0 <= m < k ==> tabs[m] == old(tabs)[m] - {Panels.ActiveClass}
        invariant forall m :: k <= m < |tabs| ==> tabs[m] == old(tabs)[m]
        invariant |panels| == EditorCount && forall m :: 0 <= m < |panels| ==> panels[m] == Panels.Hidden
        invariant editorValues == old(editorValues) && editorThemes == old(editorThemes)
        invariant body == old(body) && icon == old(icon)
        invariant previewSrcdoc == old(previewSrcdoc) && storage == old(storage)
        invariant editorWidth == old(editorWidth) && previewWidth == old(previewWidth)
      {
        tabs := tabs[k := tabs[k] - {Panels.ActiveClass}];
        k := k + 1;
      }
      panels := panels[i := Panels.Shown];
      tabs := tabs[i := tabs[i] + {Panels.ActiveClass}];
      assert tabs[i] == old(tabs)[i] + {Panels.ActiveClass};
      Panels.SwitchThenFind(old(tabs), i);
    }

    /** `updatePreview()` (script.js:67-75): the composed document goes to
        the preview frame and to local storage. */
    method UpdatePreview()
      requires WellFormed()
      modifies this
      ensures WellFormed() && PreviewCurrent()
      ensures previewSrcdoc == GetCombinedCode()
      ensures storage == old(storage)[StorageKey := previewSrcdoc]
      ensures editorValues == old(editorValues) && editorThemes == old(editorThemes)
      ensures panels == old(panels) && tabs == old(tabs)
      ensures body == old(body) && icon == old(icon)
      ensures editorWidth == old(editorWidth) && previewWidth == old(previewWidth)
    {
      var combinedCode := GetCombinedCode();
      previewSrcdoc := combinedCode;
      storage := storage[StorageKey := combinedCode];
    }

    /** `editor.setValue(text)` on editor `i`; the editor's change listener
        (script.js:10) then runs `updatePreview`. */
    method SetEditorValue(i: nat, text: string)
      requires WellFormed() && i < EditorCount
      modifies this
      ensures WellFormed() && PreviewCurrent()
      ensures editorValues == old(editorValues)[i := text]
      ensures storage == old(storage)[StorageKey := previewSrcdoc]
      ensures editorThemes == old(editorThemes)
      ensures panels == old(panels) && tabs == old(tabs)
      ensures body == old(body) && icon == old(icon)
      ensures editorWidth == old(editorWidth) && previewWidth == old(previewWidth)
    {
      editorValues := editorValues[i := text];
      UpdatePreview();
    }

    /** The format button (script.js:135-159): the editor of the active tab
        gets its text re-indented; the preview follows. */
    method FormatActiveEditor()
      requires Valid()
      modifies this
      ensures Valid()
      ensures var a := Panels.FirstActive(old(tabs));
              editorValues == old(editorValues)[a := Formatter.Format(old(editorValues)[a])]
      ensures storage == old(storage)[StorageKey := previewSrcdoc]
      ensures editorThemes == old(editorThemes)
      ensures panels == old(panels) && tabs == old(tabs)
      ensures body == old(body) && icon == old(icon)
      ensures editorWidth == old(editorWidth) && previewWidth == old(previewWidth)
    {
      var activeTabIndex := Panels.FindActive(tabs);
      var code := editorValues[activeTabIndex];
      var formatted := Formatter.FormatCode(code);
      SetEditorValue(activeTabIndex, formatted);
    }

    /** The theme button (script.js:84-101). */
    method ToggleTheme()
      requires WellFormed()
      modifies this
      ensures WellFormed()
      ensures Look() == Theme.ToggleTheme(old(Look()))
      ensures old(Valid()) ==> Valid()
      ensures editorValues == old(editorValues) && panels == old(panels) && tabs == old(tabs)
      ensures previewSrcdoc == old(previewSrcdoc) && storage == old(storage)
      ensures editorWidth == old(editorWidth) && previewWidth == old(previewWidth)
    {
      var toggled := Theme.Toggle(body, Theme.DarkMode);
      body := toggled.0;
      var isDarkMode := toggled.1;
      body := Theme.Force(body, Theme.LightMode, !isDarkMode);

      var editorTheme := if isDarkMode then Theme.DarkTheme else Theme.LightTheme;
      editorThemes := editorThemes[0 := editorTheme];
      editorThemes := editorThemes[1 := editorTheme];
      editorThemes := editorThemes[2 := editorTheme];

      if isDarkMode {
        icon := icon - {Theme.SunIcon};
        icon := icon + {Theme.MoonIcon};
      } else {
        icon := icon - {Theme.MoonIcon};
        icon := icon + {Theme.SunIcon};
      }
    }

    /** The splitter's `resize` (script.js:179-188): both column widths move
        to the mouse only when both columns stay above a fifth of the body. */
    method Resize(clientX: int, containerWidth: int)
      modifies this
      ensures Splitter.DragAccepted(clientX, containerWidth) ==>
                && editorWidth == Splitter.Percent(clientX, containerWidth)
                && previewWidth == Splitter.Percent(containerWidth - clientX, containerWidth)
      ensures !Splitter.DragAccepted(clientX, containerWidth) ==>
                editorWidth == old(editorWidth) && previewWidth == old(previewWidth)
      ensures editorValues == old(editorValues) && editorThemes == old(editorThemes)
      ensures panels == old(panels) && tabs == old(tabs)
      ensures body == old(body) && icon == old(icon)
      ensures previewSrcdoc == old(previewSrcdoc) && storage == old(storage)
    {
      var newEditorWidth := clientX;
      var newPreviewWidth := containerWidth - clientX;
      if Splitter.DragAccepted(newEditorWidth, containerWidth) {
        Splitter.AcceptedWidths(clientX, containerWidth);
        editorWidth := Splitter.Percent(newEditorWidth, containerWidth);
        previewWidth := Splitter.Percent(newPreviewWidth, containerWidth);
      }
    }
  }
}
