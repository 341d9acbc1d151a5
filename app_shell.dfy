/**
  The page shell: the sticky header's scrolled flag, the mobile menu, the
  dark-mode mirror that copies the root element's `dark` class onto the body
  and into `isDarkMode`, the logo choice and the navigation links.
 */
module AppShell {
  import opened Wrappers
  import opened Dom
  import ThemeSwitcher

  /** One navigation link: its label and its in-page anchor. */
  datatype NavItem = NavItem(name: string, href: string)

  /** The navigation links, in the order header, mobile menu and footer list them. */
  function NavItems(): (items: seq<NavItem>)
    ensures |items| == 4
  {
    [ NavItem("Home", "#home"),
      NavItem("Portfolio", "#portfolio"),
      NavItem("About", "#about"),
      NavItem("Contact", "#contact") ]
  }

  /** The navigation is exactly four in-page anchors, in page order. */
  lemma NavigationAnchors()
    ensures |NavItems()| == 4
    ensures forall i :: 0 <= i < |NavItems()| ==> NavItems()[i].href[0] == '#'
    ensures [NavItems()[0].href, NavItems()[1].href, NavItems()[2].href, NavItems()[3].href]
         == ["#home", "#portfolio", "#about", "#contact"]
  {
  }

  /** The scroll offset, in pixels, past which the header turns solid. */
  const ScrollThreshold: real := 20.0

  /** The value `handleScroll` stores for a scroll offset. */
  function IsScrolledAt(scrollY: real): (scrolled: bool)
    ensures scrolled <==> scrollY > ScrollThreshold
  {
    scrollY > ScrollThreshold
  }

  /** The comparison is strict, and once past the threshold any larger offset is too. */
  lemma ScrolledAboveThreshold(scrollY: real, further: real)
    ensures !IsScrolledAt(ScrollThreshold)
    ensures IsScrolledAt(scrollY) && scrollY <= further ==> IsScrolledAt(further)
    ensures scrollY <= ScrollThreshold ==> !IsScrolledAt(scrollY)
  {
  }

  /** The two logo images. */
  datatype Logo = LogoLight | LogoDark

  /** The header and footer logo: the light logo on a dark page and the dark logo otherwise. */
  function LogoFor(isDarkMode: bool): (logo: Logo)
    ensures logo == LogoLight <==> isDarkMode
  {
    if isDarkMode then LogoLight else LogoDark
  }

  /** The body class list after `checkDarkMode`: `dark` exactly when the root has it. */
  function MirroredBody(rootClasses: set<string>, bodyClasses: set<string>): (r: set<string>)
    ensures DarkClass in r <==> DarkClass in rootClasses
    ensures r - {DarkClass} == bodyClasses - {DarkClass}
  {
    WithClass(bodyClasses, DarkClass, DarkClass in rootClasses)
  }

  /** Mirroring an already mirrored body changes nothing. */
  lemma MirrorIdempotent(rootClasses: set<string>, bodyClasses: set<string>)
    ensures MirroredBody(rootClasses, MirroredBody(rootClasses, bodyClasses))
         == MirroredBody(rootClasses, bodyClasses)
  {
  }

  /** One record the mutation observer hands over; `attributeName` is null for non-attribute changes. */
  datatype Mutation = Mutation(attributeName: Option<string>)

  /** Some record of the batch reports a change to the `class` attribute. */
  predicate HasClassMutation(mutations: seq<Mutation>): (found: bool)
    ensures found ==> mutations != []
    ensures forall m :: m in mutations && m.attributeName == Some("class") ==> found
  {
    exists i :: 0 <= i < |mutations| && mutations[i].attributeName == Some("class")
  }

  /**
    A theme toggle followed by the observer's check: the page's dark flag
    and its logo follow the new theme, and the body agrees with the root.
   */
  lemma ToggleThenMirror(a: ThemeSwitcher.Appearance, bodyClasses: set<string>)
    ensures var r := ThemeSwitcher.Toggle(a).rootClasses;
      && (DarkClass in r <==> ThemeSwitcher.NewTheme(a.theme) == ThemeSwitcher.Dark)
      && (LogoFor(DarkClass in r) == LogoLight <==> a.theme != ThemeSwitcher.Dark)
      && (DarkClass in MirroredBody(r, bodyClasses) <==> a.theme != ThemeSwitcher.Dark)
  {
  }

  /** The shell's three state cells and the document it watches. */
  class Shell {
    var isScrolled: bool
    var mobileMenuOpen: bool
    var isDarkMode: bool
    const dom: Document

    /**
      Mount: the three cells start false, then the mount effect runs the
      dark-mode check once, before the observer is attached.
     */
    constructor (dom: Document)
      modifies dom
      ensures this.dom == dom && !isScrolled && !mobileMenuOpen
      ensures isDarkMode == (DarkClass in dom.rootClasses)
      ensures dom.bodyClasses == MirroredBody(old(dom.rootClasses), old(dom.bodyClasses))
      ensures dom.rootClasses == old(dom.rootClasses) && dom.storage == old(dom.storage)
      ensures Logo() == LogoLight <==> DarkClass in dom.rootClasses
    {
      isScrolled := false;
      mobileMenuOpen := false;
      isDarkMode := false;
      this.dom := dom;
      new;
      CheckDarkMode();
    }

    /** The logo shown in the header and in the footer. */
    function Logo(): (logo: Logo)
      reads this
      ensures logo == LogoLight <==> isDarkMode
    {
      LogoFor(isDarkMode)
    }

    /** The mobile navigation is rendered exactly while the menu is open. */
    predicate MobileNavShown(): (shown: bool)
      reads this
      ensures shown <==> mobileMenuOpen
    {
      mobileMenuOpen
    }

    /** The window scroll listener. */
    method HandleScroll(scrollY: real)
      modifies this
      ensures isScrolled == IsScrolledAt(scrollY)
      ensures mobileMenuOpen == old(mobileMenuOpen) && isDarkMode == old(isDarkMode)
    {
      isScrolled := scrollY > ScrollThreshold;
    }

    /** The menu button: open a closed menu, close an open one. */
    method ToggleMobileMenu()
      modifies this
      ensures mobileMenuOpen == !old(mobileMenuOpen)
      ensures isScrolled == old(isScrolled) && isDarkMode == old(isDarkMode)
    {
      mobileMenuOpen := !mobileMenuOpen;
    }

    /** A mobile navigation link: the menu closes, whether or not it was open. */
    method NavLinkClick()
      modifies this
      ensures !mobileMenuOpen && !MobileNavShown()
      ensures isScrolled == old(isScrolled) && isDarkMode == old(isDarkMode)
    {
      mobileMenuOpen := false;
    }

    /** `checkDarkMode`: read the root's `dark` class into the flag and copy it onto the body. */
    method CheckDarkMode()
      modifies this, dom
      ensures isDarkMode == (DarkClass in dom.rootClasses)
      ensures dom.bodyClasses == MirroredBody(old(dom.rootClasses), old(dom.bodyClasses))
      ensures dom.rootClasses == old(dom.rootClasses) && dom.storage == old(dom.storage)
      ensures isScrolled == old(isScrolled) && mobileMenuOpen == old(mobileMenuOpen)
    {
      var isDark := DarkClass in dom.rootClasses;
      isDarkMode := isDark;
      if isDark {
        dom.bodyClasses := dom.bodyClasses + {DarkClass};
      } else {
        dom.bodyClasses := dom.bodyClasses - {DarkClass};
      }
    }

    /**
      The mutation observer's callback: a check for every record naming the
      `class` attribute. Since the check is idempotent, a batch has the effect
      of one check when it holds such a record and of none otherwise.
     */
    method OnMutations(mutations: seq<Mutation>)
      modifies this, dom
      ensures HasClassMutation(mutations) ==>
        isDarkMode == (DarkClass in dom.rootClasses) &&
        dom.bodyClasses == MirroredBody(old(dom.rootClasses), old(dom.bodyClasses))
      ensures !HasClassMutation(mutations) ==>
        isDarkMode == old(isDarkMode) && dom.bodyClasses == old(dom.bodyClasses)
      ensures dom.rootClasses == old(dom.rootClasses) && dom.storage == old(dom.storage)
      ensures isScrolled == old(isScrolled) && mobileMenuOpen == old(mobileMenuOpen)
    {
      var i := 0;
      while i < |mutations|
        invariant 0 <= i <= |mutations|
        invariant dom.rootClasses == old(dom.rootClasses) && dom.storage == old(dom.storage)
        invariant isScrolled == old(isScrolled) && mobileMenuOpen == old(mobileMenuOpen)
        invariant HasClassMutation(mutations[..i]) ==>
          isDarkMode == (DarkClass in dom.rootClasses) &&
          dom.bodyClasses == MirroredBody(old(dom.rootClasses), old(dom.bodyClasses))
        invariant !HasClassMutation(mutations[..i]) ==>
          isDarkMode == old(isDarkMode) && dom.bodyClasses == old(dom.bodyClasses)
      {
        if mutations[i].attributeName == Some("class") {
          MirrorIdempotent(old(dom.rootClasses), old(dom.bodyClasses));
          CheckDarkMode();
        }
        assert mutations[..i + 1] == mutations[..i] + [mutations[i]];
        i := i + 1;
      }
      assert mutations[..i] == mutations;
    }
  }
}
