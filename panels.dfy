/** The panel and tab selector (script.js:19-31) and the lookup of the active
    tab that the upload and format buttons share (script.js:111, 137). A
    panel is its `style.display` string; a tab is the set of names in its
    `classList`. */
module Panels {

  const ActiveClass: string := "active"
  const Shown: string := "block"
  const Hidden: string := "none"

  /** `[...allTabs].findIndex(tab => tab.classList.contains('active'))`:
      the first tab marked active, or -1 when there is none. */
  function FirstActive(tabs: seq<set<string>>): (r: int)
    ensures -1 <= r < |tabs|
    ensures r == -1 <==> forall k :: 0 <= k < |tabs| ==> ActiveClass !in tabs[k]
    ensures r >= 0 ==> ActiveClass in tabs[r] && forall k :: 0 <= k < r ==> ActiveClass !in tabs[k]
  {
    if tabs == [] then -1
    else if ActiveClass in tabs[0] then 0
    else
      var r := FirstActive(tabs[1..]);
      if r == -1 then -1 else r + 1
  }

  /** `findIndex` as the browser runs it: a scan from the first tab. */
  method FindActive(tabs: seq<set<string>>) returns (index: int)
    ensures index == FirstActive(tabs)
  {
    index := 0;
    while index < |tabs|
      invariant 0 <= index <= |tabs|
      invariant forall k :: 0 <= k < index ==> ActiveClass !in tabs[k]
    {
      if ActiveClass in tabs[index] {
        return;
      }
      index := index + 1;
    }
    index := -1;
  }

  /** The panels after `switchPanel(i)`: every one hidden, then panel `i` shown. */
  function ShowOnly(panels: seq<string>, i: nat): (r: seq<string>)
    requires i < |panels|
    ensures |r| == |panels|
    ensures forall k :: 0 <= k < |r| ==> (r[k] == Shown <==> k == i)
    ensures forall k :: 0 <= k < |r| ==> r[k] == (if k == i then Shown else Hidden)
  {
    seq(|panels|, k => if k == i then Shown else Hidden)
  }

  /** The tabs after `switchPanel(i)`: `active` removed from every class list,
      then added to tab `i`; the tabs' other classes are untouched. */
  function MarkOnly(tabs: seq<set<string>>, i: nat): (r: seq<set<string>>)
    requires i < |tabs|
    ensures |r| == |tabs|
    ensures forall k :: 0 <= k < |r| ==> (ActiveClass in r[k] <==> k == i)
    ensures forall k :: 0 <= k < |r| ==> r[k] - {ActiveClass} == tabs[k] - {ActiveClass}
  {
    seq(|tabs|, k requires 0 <= k < |tabs| =>
      if k == i then tabs[k] + {ActiveClass} else tabs[k] - {ActiveClass})
  }

  /** Exactly one tab is active, and it is tab `i`. */
  predicate OnlyActive(tabs: seq<set<string>>, i: nat) {
    i < |tabs| && forall k :: 0 <= k < |tabs| ==> (ActiveClass in tabs[k] <==> k == i)
  }

  /** After `switchPanel(i)` the active-tab lookup finds `i` again, so the
      format and upload buttons act on the editor of the panel on show. */
  lemma {:induction false} SwitchThenFind(tabs: seq<set<string>>, i: nat)
    requires i < |tabs|
    ensures OnlyActive(MarkOnly(tabs, i), i)
    ensures FirstActive(MarkOnly(tabs, i)) == i
  {
    var r := MarkOnly(tabs, i);
    OnlyActiveIsFound(r, i);
  }

  /** Whenever exactly one tab is active, the lookup returns it. */
  lemma OnlyActiveIsFound(tabs: seq<set<string>>, i: nat)
    requires OnlyActive(tabs, i)
    ensures FirstActive(tabs) == i
  {
    var r := FirstActive(tabs);
    assert ActiveClass in tabs[i];
  }
}
