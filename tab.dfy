/** `Tab`: one stateless tab header. Its look is a function of its props and a
    click reports the tab's label to the parent's handler. */
module Tab {

  datatype TabProps = TabProps(activeTab: string, tabLabel: string, tabTitle: string)

  /** The rendered `<li>`: its CSS classes and its text. */
  datatype TabView = TabView(classes: seq<string>, text: string)

  const ItemClass := "tab-list-item"
  const ActiveClass := "tab-list-active"

  predicate IsActive(p: TabProps) {
    p.activeTab == p.tabLabel
  }

  /** The tab always carries the item class; it carries the active class exactly
      when its label is the active tab; it shows its title, not its label. */
  function Render(p: TabProps): (v: TabView)
    ensures |v.classes| >= 1 && v.classes[0] == ItemClass
    ensures ActiveClass in v.classes <==> p.activeTab == p.tabLabel
    ensures v.text == p.tabTitle
  {
    TabView([ItemClass] + (if IsActive(p) then [ActiveClass] else []), p.tabTitle)
  }

  /** What a click hands to the parent's `onClick`: the label, not the title. */
  function OnClick(p: TabProps): (reported: string)
    ensures IsActive(p.(activeTab := reported))
  {
    p.tabLabel
  }

  /** Clicking a tab and re-rendering it with the reported label makes it active,
      whatever was active before and whatever its title is. */
  lemma ClickActivates(p: TabProps)
    ensures ActiveClass in Render(p.(activeTab := OnClick(p))).classes
  {
  }
}
