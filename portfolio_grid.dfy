/**
  The portfolio gallery: a fixed catalog of projects, a category filter that
  derives the visible cards, the 100-character card preview, and the
  selection/modal pair set by clicking a card.
 */
module PortfolioGrid {
  import opened Wrappers

  /** One portfolio entry; the catalog is fixed for the whole session. */
  datatype Project = Project(
    id: int,
    title: string,
    category: string,
    imageUrl: string,
    description: string,
    tags: seq<string>)

  /** The filter value that selects every project. */
  const All := "All"

  /** The number of description characters a card preview keeps. */
  const PreviewLength := 100

  /** The full project descriptions, shown in the detail modal. */
  const Description1: string :=
    "Complete brand identity design for a sustainable fashion company, including logo design, color palette development, typography selection, and comprehensive brand guidelines to ensure consistent application across all touchpoints."
  const Description2: string :=
    "User interface design for a wellness tracking mobile application with a focus on accessibility and user experience. The project included user research, wireframing, prototyping, and final UI design with a comprehensive component library."
  const Description3: string :=
    "Digital marketing campaign assets including social media graphics, email templates, and landing page design for a fashion brand's summer collection launch, resulting in a 40% increase in online engagement."
  const Description4: string :=
    "Complete website redesign for a tech startup, focusing on modern aesthetics and improved user flow. The project included information architecture, wireframing, visual design, and collaboration with developers for implementation."
  const Description5: string :=
    "Sustainable packaging design for an organic skincare line, incorporating eco-friendly materials and elegant typography. The design focused on communicating the brand's natural ingredients and environmental commitment."
  const Description6: string :=
    "Magazine layout and editorial design for a quarterly fashion publication, featuring custom typography and photo editing. The project included cover design, feature spreads, and establishing a cohesive visual language throughout."

  /** The shipped catalog, in display order. */
  function Projects(): (ps: seq<Project>)
    ensures |ps| == 6
  {
    [ Project(1, "Eco Fashion Brand Identity", "Branding",
        "https://img.heroui.chat/image/ai?w=600&h=400&u=2",
        Description1,
        ["Logo Design", "Brand Guidelines", "Sustainability"]),
      Project(2, "Wellness App UI Design", "UI Design",
        "https://img.heroui.chat/image/ai?w=600&h=400&u=3",
        Description2,
        ["Mobile App", "UI/UX", "Prototyping"]),
      Project(3, "Summer Collection Campaign", "Marketing",
        "https://img.heroui.chat/image/ai?w=600&h=400&u=4",
        Description3,
        ["Social Media", "Email Design", "Campaign"]),
      Project(4, "Tech Startup Website Redesign", "Web Design",
        "https://img.heroui.chat/image/ai?w=600&h=400&u=5",
        Description4,
        ["Web Design", "UX Design", "Responsive"]),
      Project(5, "Organic Skincare Packaging", "Packaging",
        "https://img.heroui.chat/image/ai?w=600&h=400&u=6",
        Description5,
        ["Packaging", "Sustainability", "Print Design"]),
      Project(6, "Fashion Magazine Layout", "Print",
        "https://img.heroui.chat/image/ai?w=600&h=400&u=7",
        Description6,
        ["Editorial", "Typography", "Layout"])
    ]
  }

  /** The filter buttons, in display order; the first one is "All". */
  function Categories(): (cs: seq<string>)
    ensures |cs| == 7 && cs[0] == All
  {
    [All, "Branding", "UI Design", "Marketing", "Web Design", "Packaging", "Print"]
  }

  // ---------------------------------------------------------------------
  // The derived list of visible cards
  // ---------------------------------------------------------------------

  /** `sub` is `s` with some elements left out, the rest kept in order. */
  ghost predicate IsSubsequence<T>(sub: seq<T>, s: seq<T>)
    decreases |s|
  {
    if sub == [] then true
    else if s == [] then false
    else (sub[0] == s[0] && IsSubsequence(sub[1..], s[1..])) || IsSubsequence(sub, s[1..])
  }

  /**
    The projects of `catalog` whose category is exactly `category`: every
    one of them, each as often as the catalog holds it, and nothing else.
   */
  function FilterByCategory(catalog: seq<Project>, category: string): (r: seq<Project>)
    ensures forall p :: p in r ==> p.category == category
    ensures forall p :: multiset(r)[p] == if p.category == category then multiset(catalog)[p] else 0
    ensures IsSubsequence(r, catalog)
  {
    if catalog == [] then []
    else
      var rest := FilterByCategory(catalog[1..], category);
      assert catalog == [catalog[0]] + catalog[1..];
      if catalog[0].category == category then [catalog[0]] + rest else rest
  }

  /** The cards the grid renders for the active filter value. */
  function VisibleProjects(catalog: seq<Project>, activeCategory: string): (r: seq<Project>)
    ensures activeCategory == All ==> r == catalog
    ensures activeCategory != All ==> forall p :: p in r ==> p.category == activeCategory
    ensures activeCategory != All ==>
      forall p :: p in catalog && p.category == activeCategory ==> p in r
    ensures IsSubsequence(r, catalog)
  {
    if activeCategory == All then
      SubsequenceOfItself(catalog);
      catalog
    else
      var r := FilterByCategory(catalog, activeCategory);
      assert forall p :: p in catalog && p.category == activeCategory ==> multiset(r)[p] > 0;
      r
  }

  lemma {:induction false} SubsequenceOfItself<T>(s: seq<T>)
    ensures IsSubsequence(s, s)
    decreases |s|
  {
    if s != [] {
      SubsequenceOfItself(s[1..]);
    }
  }

  /** A filter value that no project carries shows an empty grid, not an error. */
  lemma {:induction false} UnmatchedCategoryShowsNothing(catalog: seq<Project>, category: string)
    requires category != All
    requires forall p :: p in catalog ==> p.category != category
    ensures VisibleProjects(catalog, category) == []
  {
  }

  /**
    Exactly the cards of the matching projects, in catalog order: a
    subsequence of the catalog of matching projects that is as long as the
    number of matching projects.
   */
  lemma {:induction false} FilterKeepsEveryMatch(catalog: seq<Project>, category: string)
    requires category != All
    ensures |VisibleProjects(catalog, category)| == CountInCategory(catalog, category)
    decreases |catalog|
  {
    if catalog != [] {
      FilterKeepsEveryMatch(catalog[1..], category);
      assert catalog == [catalog[0]] + catalog[1..];
    }
  }

  /** How many projects of `catalog` carry `category`. */
  function CountInCategory(catalog: seq<Project>, category: string): (n: nat)
    ensures n <= |catalog|
  {
    if catalog == [] then 0
    else (if catalog[0].category == category then 1 else 0) + CountInCategory(catalog[1..], category)
  }

  // ---------------------------------------------------------------------
  // Card preview and filter buttons
  // ---------------------------------------------------------------------

  /** The description as a card shows it: `substring(0, 100)` followed by "...". */
  function Preview(description: string): (r: string)
    ensures 3 <= |r| <= PreviewLength + 3
    ensures r[|r| - 3..] == "..."
    ensures r[..|r| - 3] <= description
    ensures |description| <= PreviewLength ==> r == description + "..."
    ensures |description| >= PreviewLength ==> |r| == PreviewLength + 3
  {
    var end := if |description| < PreviewLength then |description| else PreviewLength;
    description[..end] + "..."
  }

  /** Button variant of one filter button; "solid" marks the active filter. */
  function ButtonVariant(activeCategory: string, category: string): (variant: string)
    ensures variant == "solid" <==> activeCategory == category
  {
    if activeCategory == category then "solid" else "flat"
  }

  /** Button colour of one filter button; "primary" marks the active filter. */
  function ButtonColor(activeCategory: string, category: string): (color: string)
    ensures color == "primary" <==> activeCategory == category
  {
    if activeCategory == category then "primary" else "default"
  }

  /** The labels of the filter buttons that render as solid primary buttons. */
  function HighlightedButtons(buttons: seq<string>, activeCategory: string): (r: seq<string>)
    ensures forall c :: c in r ==> c in buttons
    ensures forall c :: c in r ==>
      ButtonVariant(activeCategory, c) == "solid" && ButtonColor(activeCategory, c) == "primary"
  {
    if buttons == [] then []
    else
      var rest := HighlightedButtons(buttons[1..], activeCategory);
      if ButtonVariant(activeCategory, buttons[0]) == "solid" then [buttons[0]] + rest else rest
  }

  predicate Distinct<T(==)>(s: seq<T>)
  {
    forall i, j :: 0 <= i < j < |s| ==> s[i] != s[j]
  }

  /** With distinct labels, exactly the active filter's button is highlighted. */
  lemma {:induction false} ExactlyActiveButtonHighlighted(buttons: seq<string>, activeCategory: string)
    requires Distinct(buttons)
    ensures activeCategory in buttons ==> HighlightedButtons(buttons, activeCategory) == [activeCategory]
    ensures activeCategory !in buttons ==> HighlightedButtons(buttons, activeCategory) == []
  {
    if buttons != [] {
      assert Distinct(buttons[1..]) by {
        forall i, j | 0 <= i < j < |buttons[1..]| ensures buttons[1..][i] != buttons[1..][j] {
          assert buttons[1..][i] == buttons[i + 1] && buttons[1..][j] == buttons[j + 1];
        }
      }
      ExactlyActiveButtonHighlighted(buttons[1..], activeCategory);
      if buttons[0] == activeCategory {
        assert activeCategory !in buttons[1..] by {
          forall k | 0 <= k < |buttons[1..]| ensures buttons[1..][k] != activeCategory {
            assert buttons[1..][k] == buttons[k + 1];
          }
        }
      }
    }
  }

  /** Among the shipped filter buttons, exactly the active one is solid and primary. */
  lemma ActiveFilterHighlighted(activeCategory: string)
    requires activeCategory in Categories()
    ensures HighlightedButtons(Categories(), activeCategory) == [activeCategory]
  {
    CategoriesDistinct();
    ExactlyActiveButtonHighlighted(Categories(), activeCategory);
  }

  // ---------------------------------------------------------------------
  // The shipped catalog
  // ---------------------------------------------------------------------

  /** The category labels are distinct and the first one is "All". */
  lemma CategoriesDistinct()
    ensures Distinct(Categories()) && Categories()[0] == All
  {
  }

  /** Project ids are unique. */
  lemma ProjectIdsUnique()
    ensures forall i, j :: 0 <= i < j < |Projects()| ==> Projects()[i].id != Projects()[j].id
  {
  }

  /** Every project carries a category other than "All" that has a button. */
  lemma ProjectCategoriesListed()
    ensures forall p :: p in Projects() ==> p.category != All && p.category in Categories()[1..]
  {
  }

  /** The category of each project, in catalog order. */
  function CategoriesOf(catalog: seq<Project>): (r: seq<string>)
    ensures |r| == |catalog| && forall i :: 0 <= i < |catalog| ==> r[i] == catalog[i].category
  {
    seq(|catalog|, i requires 0 <= i < |catalog| => catalog[i].category)
  }

  /** The projects' categories are the filter buttons after "All", one project each. */
  lemma CatalogCategories()
    ensures CategoriesOf(Projects()) == Categories()[1..]
    ensures Distinct(CategoriesOf(Projects()))
  {
    CategoriesDistinct();
  }

  /** Each filter button other than "All" shows exactly one project of the shipped catalog. */
  lemma EachCategoryShowsOneProject(category: string)
    requires category in Categories()[1..]
    ensures |VisibleProjects(Projects(), category)| == 1
  {
    CatalogCategories();
    DistinctCategoriesCountOne(Projects(), category);
    FilterKeepsEveryMatch(Projects(), category);
  }

  /** A catalog whose categories are distinct holds one project of each of them. */
  lemma DistinctCategoriesCountOne(catalog: seq<Project>, category: string)
    requires Distinct(CategoriesOf(catalog)) && category in CategoriesOf(catalog)
    ensures CountInCategory(catalog, category) == 1
  {
    var cs := CategoriesOf(catalog);
    var k :| 0 <= k < |catalog| && cs[k] == category;
    forall j | 0 <= j < |catalog| && j != k
      ensures catalog[j].category != category
    {
      assert cs[j] != cs[k];
    }
    CountIsOne(catalog, category, k);
  }

  /** A catalog with exactly one project in `category` counts one there. */
  lemma {:induction false} CountIsOne(catalog: seq<Project>, category: string, i: nat)
    requires i < |catalog| && catalog[i].category == category
    requires forall j :: 0 <= j < |catalog| && j != i ==> catalog[j].category != category
    ensures CountInCategory(catalog, category) == 1
  {
    if i == 0 {
      CountIsZero(catalog[1..], category);
    } else {
      CountIsOne(catalog[1..], category, i - 1);
    }
  }

  /** A catalog without projects in `category` counts none there. */
  lemma {:induction false} CountIsZero(catalog: seq<Project>, category: string)
    requires forall j :: 0 <= j < |catalog| ==> catalog[j].category != category
    ensures CountInCategory(catalog, category) == 0
  {
    if catalog != [] {
      CountIsZero(catalog[1..], category);
    }
  }

  // ---------------------------------------------------------------------
  // Component state
  // ---------------------------------------------------------------------

  /** The gallery's three state cells: filter, selected project, modal open flag. */
  class Gallery {
    var activeCategory: string
    var selectedProject: Option<Project>
    var isOpen: bool

    /** Initial state: filter "All", nothing selected, modal closed. */
    constructor ()
      ensures activeCategory == All && selectedProject == None && !isOpen
    {
      activeCategory := All;
      selectedProject := None;
      isOpen := false;
    }

    /** The cards rendered for the current filter value. */
    function Visible(): (cards: seq<Project>)
      reads this
      ensures activeCategory == All ==> cards == Projects()
      ensures activeCategory != All ==> forall p :: p in cards ==> p.category == activeCategory
      ensures activeCategory != All ==>
        forall p :: p in Projects() && p.category == activeCategory ==> p in cards
      ensures IsSubsequence(cards, Projects())
    {
      VisibleProjects(Projects(), activeCategory)
    }

    /** The project the modal shows: only while open and something is selected. */
    function Shown(): (r: Option<Project>)
      reads this
      ensures r.Some? <==> isOpen && selectedProject.Some?
      ensures r.Some? ==> r == selectedProject
    {
      if isOpen then selectedProject else None
    }

    /** A filter button press: replaces the filter, whatever it was. */
    method SelectCategory(category: string)
      modifies this
      ensures activeCategory == category
      ensures selectedProject == old(selectedProject) && isOpen == old(isOpen)
    {
      activeCategory := category;
    }

    /** A card press: remember the project and open the modal. */
    method ProjectClick(project: Project)
      modifies this
      ensures selectedProject == Some(project) && isOpen
      ensures activeCategory == old(activeCategory)
      ensures Shown() == Some(project)
    {
      selectedProject := Some(project);
      isOpen := true;
    }

    /** Closing the modal clears only the open flag; the selection stays. */
    method Close()
      modifies this
      ensures !isOpen && Shown() == None
      ensures selectedProject == old(selectedProject)
      ensures activeCategory == old(activeCategory)
    {
      isOpen := false;
    }
  }
}
