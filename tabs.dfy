/** `Tabs`: a tab strip over its children. The active tab is the one piece of
    state; it starts at the first child's label and clicks set it. */
module Tabs {
  import Tab
  import opened JsValues

  /** A child of `Tabs`: an element with `label` and `tabTitle` props and the
      content it shows when active. */
  datatype TabChild<C> = TabChild(tabLabel: string, tabTitle: string, content: C)

  /** A rendered `Tab` element with its React key. */
  datatype TabElement = TabElement(key: string, props: Tab.TabProps)

  /** The whole rendering: the tab list and the content slots. */
  datatype TabsView<C> = TabsView(tabs: seq<TabElement>, content: seq<Option<C>>)

  /** The key `${label}-${index}`. */
  function TabKey(tabLabel: string, index: nat): string {
    tabLabel + "-" + IntString(index)
  }

  /** The tab list: one `Tab` per child, in child order, with that child's label
      and title and the current active tab. */
  function TabList<C>(children: seq<TabChild<C>>, activeTab: string): (r: seq<TabElement>)
    ensures |r| == |children|
    ensures forall i :: 0 <= i < |children| ==>
              r[i].props == Tab.TabProps(activeTab, children[i].tabLabel, children[i].tabTitle)
    ensures forall i :: 0 <= i < |children| ==> r[i].key == TabKey(children[i].tabLabel, i)
  {
    seq(|children|, i requires 0 <= i < |children| =>
      TabElement(TabKey(children[i].tabLabel, i),
                 Tab.TabProps(activeTab, children[i].tabLabel, children[i].tabTitle)))
  }

  /** The content slots: a child's content where its label is the active tab,
      null everywhere else. */
  function Content<C>(children: seq<TabChild<C>>, activeTab: string): (r: seq<Option<C>>)
    ensures |r| == |children|
    ensures forall i :: 0 <= i < |children| ==>
              (r[i].Some? <==> children[i].tabLabel == activeTab)
    ensures forall i :: 0 <= i < |children| && r[i].Some? ==> r[i].value == children[i].content
  {
    if |children| == 0 then []
    else [if children[0].tabLabel == activeTab then Some(children[0].content) else None]
         + Content(children[1..], activeTab)
  }

  /** What React draws of the content slots: the non-null ones, in order. */
  function Shown<C>(slots: seq<Option<C>>): seq<C> {
    if |slots| == 0 then []
    else (if slots[0].Some? then [slots[0].value] else []) + Shown(slots[1..])
  }

  /** The contents of the children carrying a given label, in child order. */
  function WithLabel<C>(children: seq<TabChild<C>>, tabLabel: string): seq<C> {
    if |children| == 0 then []
    else (if children[0].tabLabel == tabLabel then [children[0].content] else [])
         + WithLabel(children[1..], tabLabel)
  }

  /** What is shown is exactly the content of the children whose label is the
      active tab, in their order. */
  lemma {:induction false} ShownIsActiveContent<C>(children: seq<TabChild<C>>, activeTab: string)
    ensures Shown(Content(children, activeTab)) == WithLabel(children, activeTab)
  {
    if |children| > 0 {
      ShownIsActiveContent(children[1..], activeTab);
      assert Content(children, activeTab)[1..] == Content(children[1..], activeTab);
    }
  }

  predicate DistinctLabels<C>(children: seq<TabChild<C>>) {
    forall i, j :: 0 <= i < j < |children| ==> children[i].tabLabel != children[j].tabLabel
  }

  /** With distinct labels, the child labelled `activeTab` is the only one shown. */
  lemma {:induction false} OnlyActiveChildShown<C>(children: seq<TabChild<C>>, k: nat)
    requires k < |children| && DistinctLabels(children)
    ensures Shown(Content(children, children[k].tabLabel)) == [children[k].content]
  {
    ShownIsActiveContent(children, children[k].tabLabel);
    WithUniqueLabel(children, k);
  }

  lemma {:induction false} WithUniqueLabel<C>(children: seq<TabChild<C>>, k: nat)
    requires k < |children| && DistinctLabels(children)
    ensures WithLabel(children, children[k].tabLabel) == [children[k].content]
  {
    if k == 0 {
      NoneWithLabel(children[1..], children[0].tabLabel);
    } else {
      WithUniqueLabel(children[1..], k - 1);
    }
  }

  lemma {:induction false} NoneWithLabel<C>(children: seq<TabChild<C>>, tabLabel: string)
    requires forall i :: 0 <= i < |children| ==> children[i].tabLabel != tabLabel
    ensures WithLabel(children, tabLabel) == []
  {
    if |children| > 0 {
      NoneWithLabel(children[1..], tabLabel);
    }
  }

  /** The tabs component and its one state field. */
  class Tabs<C> {
    const children: seq<TabChild<C>>
    var activeTab: string

    /** The active tab names one of the children. */
    ghost predicate Valid()
      reads this
    {
      exists i :: 0 <= i < |children| && children[i].tabLabel == activeTab
    }

    /** The initial active tab is the first child's label; with no children the
        destructuring of the first child throws, so children are required. */
    constructor(children: seq<TabChild<C>>)
      requires |children| > 0
      ensures this.children == children
      ensures activeTab == children[0].tabLabel
      ensures Valid()
    {
      this.children := children;
      activeTab := children[0].tabLabel;
    }

    /** `onClickTabItem(tab)`: the active tab becomes `tab`, whatever it was, so
        a second click on the same tab changes nothing. */
    method OnClickTabItem(tab: string)
      modifies this
      ensures activeTab == tab
    {
      activeTab := tab;
    }

    /** A click on the i-th rendered tab: the tab reports its label and the
        handler stores it; the clicked tab is then the active one. */
    method ClickTab(i: nat)
      requires i < |children|
      modifies this
      ensures activeTab == children[i].tabLabel
      ensures Valid()
      ensures Tab.ActiveClass in Tab.Render(TabList(children, activeTab)[i].props).classes
    {
      var element := TabList(children, activeTab)[i];
      OnClickTabItem(Tab.OnClick(element.props));
    }

    /** `render()`: while the active tab names a child, some content is shown and
        the tab of every child with that label is drawn active. */
    function Render(): (v: TabsView<C>)
      reads this
      requires Valid()
      ensures |v.tabs| == |v.content| == |children|
      ensures |Shown(v.content)| >= 1
      ensures forall i :: 0 <= i < |children| ==>
                (Tab.ActiveClass in Tab.Render(v.tabs[i].props).classes <==> v.content[i].Some?)
    {
      var v := TabsView(TabList(children, activeTab), Content(children, activeTab));
      var k :| 0 <= k < |children| && children[k].tabLabel == activeTab;
      ShownHasActive(v.content, k);
      v
    }
  }

  lemma {:induction false} ShownHasActive<C>(slots: seq<Option<C>>, k: nat)
    requires k < |slots| && slots[k].Some?
    ensures |Shown(slots)| >= 1
  {
    if k > 0 {
      ShownHasActive(slots[1..], k - 1);
    }
  }
}
