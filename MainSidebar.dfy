/** The editor's sidebar: collapsible tool sections, at most one expanded at a
    time, and a remembered "selected tool" that the section toggle never touches. */
module MainSidebar {

  import opened Common

  datatype Section = Section(title: string, tools: seq<string>)

  /** The sections the sidebar lists, with their tools' names. */
  const Sections: seq<Section> :=
    [Section("File Operations", ["Upload Image", "Open File", "Save Project", "History"])]

  /** The section expanded when the sidebar first appears. */
  const InitialSection: string := "File Operations"

  predicate IsSectionTitle(t: string) {
    exists i :: 0 <= i < |Sections| && Sections[i].title == t
  }

  predicate IsToolName(n: string) {
    exists i, j :: 0 <= i < |Sections| && 0 <= j < |Sections[i].tools| && Sections[i].tools[j] == n
  }

  /** A section header click: collapses the section if it is the active one,
      otherwise makes it the active one. */
  function Toggled(active: Option<string>, title: string): (r: Option<string>)
    ensures r.None? <==> active == Some(title)
    ensures r.Some? ==> r.value == title
  {
    if active == Some(title) then None else Some(title)
  }

  /** Clicking the same header twice restores the state, when nothing or that
      section was active; with a single section that is every state. */
  lemma ToggleTwice(active: Option<string>, title: string)
    requires active.None? || active == Some(title)
    ensures Toggled(Toggled(active, title), title) == active
  {
  }

  /** With another section active, two clicks on a header leave none active. */
  lemma ToggleTwiceFromOther(active: Option<string>, title: string)
    requires active.Some? && active.value != title
    ensures Toggled(Toggled(active, title), title) == None
  {
  }

  /** In every state the sidebar can be in (only one section is listed),
      clicking the header twice restores the expanded section. */
  lemma ToggleTwiceRestores(active: Option<string>)
    requires active.Some? ==> IsSectionTitle(active.value)
    ensures Toggled(Toggled(active, Sections[0].title), Sections[0].title) == active
  {
  }

  /** A tool button: its name, and whether it is highlighted as the selected tool. */
  datatype ToolButton = ToolButton(name: string, highlighted: bool)

  /** A rendered section: its header, whether it is expanded, and the tool
      buttons listed under it (none when collapsed). */
  datatype SectionView = SectionView(title: string, expanded: bool, tools: seq<ToolButton>)

  function RenderSection(s: Section, activeSection: Option<string>, activeTool: Option<string>): (v: SectionView)
    ensures v.title == s.title
    ensures v.expanded <==> activeSection == Some(s.title)
    ensures !v.expanded ==> v.tools == []
    ensures v.expanded ==> |v.tools| == |s.tools|
    ensures v.expanded ==> forall j :: 0 <= j < |s.tools| ==>
              v.tools[j].name == s.tools[j] && (v.tools[j].highlighted <==> activeTool == Some(s.tools[j]))
  {
    var expanded := activeSection == Some(s.title);
    var tools := if expanded then
      seq(|s.tools|, j requires 0 <= j < |s.tools| => ToolButton(s.tools[j], activeTool == Some(s.tools[j])))
    else [];
    SectionView(s.title, expanded, tools)
  }

  /** The whole list, one view per section in order. */
  function Render(activeSection: Option<string>, activeTool: Option<string>): (vs: seq<SectionView>)
    ensures |vs| == |Sections|
    ensures forall i :: 0 <= i < |Sections| ==> vs[i] == RenderSection(Sections[i], activeSection, activeTool)
  {
    seq(|Sections|, i requires 0 <= i < |Sections| => RenderSection(Sections[i], activeSection, activeTool))
  }

  /** Among distinct names, at most one tool button of a section is highlighted. */
  lemma AtMostOneHighlighted(s: Section, activeSection: Option<string>, activeTool: Option<string>, j: int, k: int)
    requires forall a, b :: 0 <= a < b < |s.tools| ==> s.tools[a] != s.tools[b]
    requires var v := RenderSection(s, activeSection, activeTool);
             0 <= j < |v.tools| && 0 <= k < |v.tools| && v.tools[j].highlighted && v.tools[k].highlighted
    ensures j == k
  {
  }

  /** The sidebar's state: the expanded section and the selected tool. */
  class Sidebar {
    var activeSection: Option<string>
    var activeTool: Option<string>

    /** Each register names something the sidebar lists, or nothing. */
    ghost predicate Valid()
      reads this
    {
      && (activeSection.Some? ==> IsSectionTitle(activeSection.value))
      && (activeTool.Some? ==> IsToolName(activeTool.value))
    }

    constructor ()
      ensures Valid()
      ensures activeSection == Some(InitialSection) && activeTool.None?
    {
      activeSection := Some(InitialSection);
      activeTool := None;
      assert Sections[0].title == InitialSection;
    }

    /** A click on the header of section i. */
    method ClickSection(i: nat)
      requires Valid() && i < |Sections|
      modifies this
      ensures Valid()
      ensures activeSection == Toggled(old(activeSection), Sections[i].title)
      ensures activeTool == old(activeTool)
    {
      activeSection := Toggled(activeSection, Sections[i].title);
    }

    /** A click on tool j of section i; its buttons are shown only while
        section i is the expanded one. */
    method ClickTool(i: nat, j: nat)
      requires Valid() && i < |Sections| && j < |Sections[i].tools|
      requires activeSection == Some(Sections[i].title)
      modifies this
      ensures Valid()
      ensures activeTool == Some(Sections[i].tools[j])
      ensures activeSection == old(activeSection)
    {
      activeTool := Some(Sections[i].tools[j]);
    }
  }
}
