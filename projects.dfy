/**
 * The Projects section: a category filter over a fixed list of projects, a
 * detail modal for the selected project, and an image-zoom overlay nested
 * inside the detail modal.
 */
module Projects {

  datatype Option<T> = None | Some(value: T)

  /** A project as far as the filter sees it: its key and its categories. */
  datatype Project = Project(id: int, categories: seq<string>)

  /** A zoomed gallery image: its source and its alt text. */
  datatype ZoomedImage = ZoomedImage(src: string, alt: string)

  /** The filter id that disables filtering. */
  const AllFilter := "all"

  /** The ids of the filter buttons, in display order. */
  const FilterIds: seq<string> := [AllFilter, "web", "mobile", "cloud", "ai"]

  /** The three shipped projects; each is in the "web" category only. */
  const ShippedProjects: seq<Project> :=
    [Project(1, ["web"]), Project(2, ["web"]), Project(3, ["web"])]

  /** `a` is `b` with some elements left out, the rest in their original order. */
  predicate IsSubsequence<T(==)>(a: seq<T>, b: seq<T>)
    decreases |b|
  {
    || a == []
    || (b != [] && ((a[0] == b[0] && IsSubsequence(a[1..], b[1..])) || IsSubsequence(a, b[1..])))
  }

  /**
   * `projects.filter(project => project.categories.includes(category))`:
   * the projects in that category, each as often as in the input, in input order.
   */
  function FilterByCategory(projects: seq<Project>, category: string): (r: seq<Project>)
    ensures IsSubsequence(r, projects)
    ensures forall p :: multiset(r)[p] == if category in p.categories then multiset(projects)[p] else 0
    ensures |r| <= |projects|
  {
    if projects == [] then []
    else
      var rest := FilterByCategory(projects[1..], category);
      assert projects == [projects[0]] + projects[1..];
      if category in projects[0].categories then [projects[0]] + rest else rest
  }

  /** `filteredProjects`: everything under the "all" sentinel, otherwise the projects in the active category. */
  function Visible(projects: seq<Project>, activeFilter: string): (r: seq<Project>)
    ensures activeFilter == AllFilter ==> r == projects
    ensures IsSubsequence(r, projects) && |r| <= |projects|
    ensures activeFilter != AllFilter ==>
              forall p :: multiset(r)[p] == if activeFilter in p.categories then multiset(projects)[p] else 0
  {
    if activeFilter == AllFilter then
      SubsequenceReflexive(projects);
      projects
    else FilterByCategory(projects, activeFilter)
  }

  /** Every sequence is a subsequence of itself. */
  lemma {:induction false} SubsequenceReflexive<T>(s: seq<T>)
    ensures IsSubsequence(s, s)
  {
    if s != [] {
      SubsequenceReflexive(s[1..]);
    }
  }

  /** Under any filter other than "all", a project is shown exactly when it is listed and carries that category. */
  lemma VisibleMembership(projects: seq<Project>, activeFilter: string, p: Project)
    requires activeFilter != AllFilter
    ensures p in Visible(projects, activeFilter) <==> p in projects && activeFilter in p.categories
  {
    var r := Visible(projects, activeFilter);
    assert p in r <==> multiset(r)[p] > 0;
    assert p in projects <==> multiset(projects)[p] > 0;
  }

  /** When every project carries the category, filtering by it keeps the whole list. */
  lemma {:induction false} FilterKeepsAll(projects: seq<Project>, category: string)
    requires forall i :: 0 <= i < |projects| ==> category in projects[i].categories
    ensures FilterByCategory(projects, category) == projects
  {
    if projects != [] {
      FilterKeepsAll(projects[1..], category);
    }
  }

  /** When no project carries the category, filtering by it shows nothing. */
  lemma {:induction false} FilterDropsAll(projects: seq<Project>, category: string)
    requires forall i :: 0 <= i < |projects| ==> category !in projects[i].categories
    ensures FilterByCategory(projects, category) == []
  {
    if projects != [] {
      FilterDropsAll(projects[1..], category);
    }
  }

  /**
   * With the shipped data, "all" and "web" show all three projects and the
   * other filter buttons show none.
   */
  lemma ShippedFilterResults()
    ensures Visible(ShippedProjects, FilterIds[0]) == ShippedProjects
    ensures Visible(ShippedProjects, FilterIds[1]) == ShippedProjects
    ensures forall i :: 2 <= i < |FilterIds| ==> Visible(ShippedProjects, FilterIds[i]) == []
  {
    assert forall i :: 0 <= i < |ShippedProjects| ==> ShippedProjects[i].categories == ["web"];
    FilterKeepsAll(ShippedProjects, "web");
    forall i | 2 <= i < |FilterIds|
      ensures Visible(ShippedProjects, FilterIds[i]) == []
    {
      FilterDropsAll(ShippedProjects, FilterIds[i]);
    }
  }

  /**
   * The state of the Projects section: the active filter and the detail modal
   * (`Projects`), and the zoom overlay state of `ProjectDetailsModal`, which
   * stays mounted for the section's lifetime and so keeps its own state
   * while the detail modal is closed.
   */
  class ProjectsSection {
    const projects: seq<Project>
    var activeFilter: string
    var selected: Option<Project>
    var modalOpen: bool
    var zoomed: Option<ZoomedImage>
    var zoomOpen: bool

    /** The handlers always set or clear each pair of fields together. */
    ghost predicate Valid()
      reads this
    {
      && (modalOpen <==> selected.Some?)
      && (zoomOpen <==> zoomed.Some?)
    }

    /** The projects the grid shows: a subsequence of the list, all of it under "all". */
    function VisibleProjects(): (r: seq<Project>)
      reads this
      ensures activeFilter == AllFilter ==> r == projects
      ensures IsSubsequence(r, projects) && |r| <= |projects|
      ensures forall p :: p in r <==> p in projects && (activeFilter == AllFilter || activeFilter in p.categories)
    {
      Visible(projects, activeFilter)
    }

    /**
     * The detail modal renders nothing without a project or while closed;
     * since the handlers keep the two fields in step, it renders exactly
     * while the modal is open.
     */
    predicate DetailRendered()
      reads this
      ensures selected == None ==> !DetailRendered()
      ensures !modalOpen ==> !DetailRendered()
      ensures Valid() ==> (DetailRendered() <==> modalOpen)
    {
      selected.Some? && modalOpen
    }

    /**
     * The zoom overlay is gated on its own flag and sits inside the rendered
     * detail modal; when it renders there is an image to show.
     */
    predicate ZoomRendered()
      reads this
      ensures ZoomRendered() ==> DetailRendered() && zoomOpen
      ensures !zoomOpen ==> !ZoomRendered()
      ensures Valid() && ZoomRendered() ==> zoomed.Some? && selected.Some?
    {
      DetailRendered() && zoomOpen
    }

    /** The zoom flag is only set while the detail modal around it is rendered. */
    predicate ZoomNested()
      reads this
    {
      zoomOpen ==> DetailRendered()
    }

    constructor (projects: seq<Project>)
      ensures Valid() && ZoomNested()
      ensures this.projects == projects && activeFilter == AllFilter
      ensures VisibleProjects() == projects
      ensures selected == None && !modalOpen && zoomed == None && !zoomOpen
    {
      this.projects := projects;
      activeFilter := AllFilter;
      selected := None;
      modalOpen := false;
      zoomed := None;
      zoomOpen := false;
    }

    /** A filter button click; choosing the active filter again changes nothing. */
    method SetFilter(id: string)
      requires Valid()
      modifies this
      ensures Valid()
      ensures activeFilter == id && VisibleProjects() == Visible(projects, id)
      ensures selected == old(selected) && modalOpen == old(modalOpen)
      ensures zoomed == old(zoomed) && zoomOpen == old(zoomOpen)
      ensures old(activeFilter) == id ==> unchanged(this)
    {
      activeFilter := id;
    }

    /** `handleViewDetails`: shows the given project, whatever was selected before. */
    method ViewDetails(p: Project)
      requires Valid()
      modifies this
      ensures Valid() && ZoomNested() && DetailRendered()
      ensures selected == Some(p) && modalOpen
      ensures activeFilter == old(activeFilter) && zoomed == old(zoomed) && zoomOpen == old(zoomOpen)
    {
      selected := Some(p);
      modalOpen := true;
    }

    /**
     * `handleCloseModal`, run by the detail backdrop and its close button.
     * It leaves the zoom state alone, so the zoom stays nested only if it was closed.
     */
    method CloseModal()
      requires Valid()
      modifies this
      ensures Valid() && !DetailRendered() && !ZoomRendered()
      ensures selected == None && !modalOpen
      ensures activeFilter == old(activeFilter) && zoomed == old(zoomed) && zoomOpen == old(zoomOpen)
      ensures ZoomNested() <==> !old(zoomOpen)
    {
      modalOpen := false;
      selected := None;
    }

    /** `handleImageClick`: a gallery image, which exists only inside the rendered detail modal. */
    method ImageClick(src: string, alt: string)
      requires Valid() && DetailRendered()
      modifies this
      ensures Valid() && ZoomNested() && ZoomRendered()
      ensures zoomed == Some(ZoomedImage(src, alt)) && zoomOpen
      ensures activeFilter == old(activeFilter) && selected == old(selected) && modalOpen == old(modalOpen)
    {
      zoomed := Some(ZoomedImage(src, alt));
      zoomOpen := true;
    }

    /**
     * `handleCloseImageZoom`, run by the zoom close button: the click stops
     * propagating at the image container, so the detail modal stays as it is.
     */
    method CloseImageZoom()
      requires Valid()
      modifies this
      ensures Valid() && ZoomNested() && !ZoomRendered()
      ensures zoomed == None && !zoomOpen
      ensures activeFilter == old(activeFilter) && selected == old(selected) && modalOpen == old(modalOpen)
    {
      zoomOpen := false;
      zoomed := None;
    }

    /**
     * A click on the zoom backdrop: it runs the zoom's close handler and then
     * bubbles to the detail backdrop, whose handler closes the detail modal.
     */
    method ZoomBackdropClick()
      requires Valid()
      modifies this
      ensures Valid() && ZoomNested() && !DetailRendered()
      ensures selected == None && !modalOpen && zoomed == None && !zoomOpen
      ensures activeFilter == old(activeFilter)
    {
      CloseImageZoom();
      CloseModal();
    }
  }

  /** Closing and reopening never shows a stale project. */
  method ReopenScenario(p: Project, q: Project)
  {
    var section := new ProjectsSection(ShippedProjects);
    section.ViewDetails(p);
    section.CloseModal();
    assert !section.DetailRendered();
    section.ViewDetails(q);
    assert section.selected == Some(q);
  }

  /**
   * Closing the detail modal through its own handler keeps the zoom flag, so
   * the next project opens with the old image zoomed over it; a click on the
   * zoom backdrop closes both.
   */
  method ZoomScenario(p: Project, q: Project)
  {
    var section := new ProjectsSection(ShippedProjects);
    section.ViewDetails(p);
    section.ImageClick("/images/gallery1.jpg", "screenshot 1");
    section.CloseModal();
    assert section.zoomOpen && !section.ZoomNested();
    section.ViewDetails(q);
    assert section.ZoomRendered() && section.zoomed == Some(ZoomedImage("/images/gallery1.jpg", "screenshot 1"));
    section.ZoomBackdropClick();
    assert !section.DetailRendered() && !section.zoomOpen;
  }
}
