/** The branch indicator: a counter button over the conversation's sibling
    branches and, while open, a menu that marks the current one. */
module BranchIndicator {
  import opened ChatApi

  /** A sibling branch as listed by the tree library: the node to switch
      to, a preview of its text and a time stamp. */
  datatype Branch = Branch(nodeId: string, preview: string, timestamp: int)

  datatype Entry = Entry(nodeId: string, preview: string, active: bool)

  /** The open menu: the marker row for the current branch, shown only when
      it is the first one, then one entry per listed branch. */
  datatype Menu = Menu(headerCurrent: bool, entries: seq<Entry>)

  /** The counter reads `position/total`. */
  datatype Indicator = Indicator(position: int, total: nat, menu: Option<Menu>)

  function Entries(branches: seq<Branch>, currentIndex: int): (es: seq<Entry>)
    ensures |es| == |branches|
    ensures forall idx :: 0 <= idx < |es| ==>
      es[idx].nodeId == branches[idx].nodeId && es[idx].preview == branches[idx].preview &&
      (es[idx].active <==> idx + 1 == currentIndex)
  {
    seq(|branches|, idx requires 0 <= idx < |branches| =>
      Entry(branches[idx].nodeId, branches[idx].preview, idx + 1 == currentIndex))
  }

  /** Nothing renders without sibling branches. Otherwise the total counts
      the listed branches plus the current one, the position is one past
      `currentIndex`, and the menu is present exactly while open. */
  function Render(branches: seq<Branch>, currentIndex: int, showMenu: bool): (r: Option<Indicator>)
    ensures r.None? <==> |branches| == 0
    ensures r.Some? ==> r.value.total == |branches| + 1 && r.value.position == currentIndex + 1
    ensures r.Some? ==> (r.value.menu.Some? <==> showMenu)
    ensures r.Some? && showMenu ==>
      (r.value.menu.value.headerCurrent <==> currentIndex == 0) &&
      r.value.menu.value.entries == Entries(branches, currentIndex)
  {
    if |branches| == 0 then None
    else
      var menu := if showMenu then Some(Menu(currentIndex == 0, Entries(branches, currentIndex))) else None;
      Some(Indicator(currentIndex + 1, |branches| + 1, menu))
  }

  /** How many rows of the menu carry the "current" marker. */
  function Marked(m: Menu): nat {
    (if m.headerCurrent then 1 else 0) + ActiveCount(m.entries)
  }

  function ActiveCount(es: seq<Entry>): nat
    decreases |es|
  {
    if es == [] then 0 else ActiveCount(es[..|es| - 1]) + (if es[|es| - 1].active then 1 else 0)
  }

  /** Entry `idx` is active iff `idx + 1 == currentIndex`, so at most one
      entry is, and exactly one when `currentIndex` names an entry. */
  lemma {:induction false} ActiveEntries(branches: seq<Branch>, currentIndex: int)
    ensures ActiveCount(Entries(branches, currentIndex)) == if 1 <= currentIndex <= |branches| then 1 else 0
    decreases |branches|
  {
    if branches != [] {
      var n := |branches| - 1;
      assert Entries(branches, currentIndex)[..n] == Entries(branches[..n], currentIndex);
      ActiveEntries(branches[..n], currentIndex);
    }
  }

  /** Exactly one row of an open menu is marked when
      `0 <= currentIndex <= |branches|`, and none otherwise. */
  lemma OneCurrentMarker(branches: seq<Branch>, currentIndex: int)
    requires |branches| > 0
    ensures Render(branches, currentIndex, true).Some?
    ensures Marked(Render(branches, currentIndex, true).value.menu.value) ==
      if 0 <= currentIndex <= |branches| then 1 else 0
  {
    ActiveEntries(branches, currentIndex);
  }

  /** What the user can do to the menu: click the counter button, click the
      backdrop, or pick entry `idx`. */
  datatype MenuEvent = Toggle | Backdrop | Pick(idx: nat)

  /** The `showMenu` state after an event: the menu is open afterwards
      exactly when the event was a click on the counter button while the
      menu was closed; the backdrop and every entry close it. */
  function MenuStep(showMenu: bool, e: MenuEvent): (r: bool)
    ensures r <==> e.Toggle? && !showMenu
  {
    match e
    case Toggle => !showMenu
    case Backdrop => false
    case Pick(_) => false
  }

  /** Two clicks on the counter button leave the menu as it was. */
  lemma ToggleTwice(showMenu: bool)
    ensures MenuStep(MenuStep(showMenu, Toggle), Toggle) == showMenu
  {
  }

  /** Clicking a menu entry: the branch to switch to, and whether the menu
      stays open afterwards. */
  datatype Selection = Selection(switchTo: string, showMenu: bool)

  /** Selecting entry `idx` switches to exactly that entry's node and leaves
      the menu as the `Pick` event does: closed. */
  function SelectEntry(m: Menu, idx: nat): (r: Selection)
    requires idx < |m.entries|
    ensures r.switchTo == m.entries[idx].nodeId && !r.showMenu
    ensures r.showMenu == MenuStep(true, Pick(idx))
  {
    Selection(m.entries[idx].nodeId, false)
  }

  /** Selecting a rendered entry passes on the listed branch's own node. */
  lemma SelectRenderedEntry(branches: seq<Branch>, currentIndex: int, idx: nat)
    requires idx < |branches|
    ensures var m := Render(branches, currentIndex, true).value.menu.value;
      idx < |m.entries| && SelectEntry(m, idx) == Selection(branches[idx].nodeId, false)
  {
  }
}
