# Portfolio page view state, modelled in Dafny

The repository is a single-page personal portfolio written in React. Almost all
of it is markup, styling, animation and 3D decoration. What it decides
discretely is a small amount of view state, and that is what this project
models and proves things about:

- **Portfolio gallery** (`portfolio_grid.dfy`, module `PortfolioGrid`): the
  fixed catalog of six projects and seven filter labels; the visible cards
  derived from the active filter; the 100-character card preview; which
  filter button is highlighted; the `Gallery` class holding the active
  filter, the selected project and the modal's open flag.
- **Contact form** (`contact_form.dfy`, module `ContactForm`): the four-field
  draft, the `isSubmitting`/`isSubmitted` flags and the two timers started by
  the submit handler. Each timer is a pending entry that a later "fires" event
  runs. The `Form` class holds the component's cells. Its methods are proved
  equal to the pure `Step` function, and the lifecycle properties are proved
  about `Step`.
- **Theme switch** (`theme_switcher.dfy`, module `ThemeSwitcher`): the choice
  of the next theme, the tooltip text, and the toggle. The toggle writes
  storage and the root element's class list in place through a shared
  `Dom.Document` (`dom.dfy`).
- **Page shell** (`app_shell.dfy`, module `AppShell`): the scroll threshold,
  the mobile menu, the dark-mode mirror (`checkDarkMode`) and the mutation
  observer that re-runs it, the logo choice and the navigation links.

React state cells and HeroUI's `useDisclosure` are plain class fields. The
DOM class lists are `set<string>` and `localStorage` is a
`map<string, string>`. Console output is a sequence the model appends to.

The model does what the code does, including four behaviours a reader might
expect the code to handle and that it does not:

- closing the project modal does not clear the selection; only the open flag changes;
- the submit handler does not check any field and reports no validation error;
- edits are not blocked while a submission is in flight, and completion wipes them;
- the contact-form timers are never cancelled, and the form has no error state.

## Model

| member | source | states |
|---|---|---|
| PortfolioGrid.Projects | src/components/portfolio-grid.tsx:37-86 | the shipped catalog holds six projects |
| PortfolioGrid.Categories | src/components/portfolio-grid.tsx:88 | there are seven filter labels and the first is "All" |
| PortfolioGrid.ButtonVariant | src/components/portfolio-grid.tsx:220 | a filter button is "solid" exactly when it is the active filter |
| PortfolioGrid.ButtonColor | src/components/portfolio-grid.tsx:221 | a filter button is "primary" exactly when it is the active filter |
| PortfolioGrid.CatalogCategories | src/components/portfolio-grid.tsx:37-88 | the projects' categories, in catalog order, are the filter labels after "All", each used once |
| PortfolioGrid.DistinctCategoriesCountOne | src/components/portfolio-grid.tsx:136 | in a catalog whose categories are distinct, a filter on one of them matches exactly one project |
| PortfolioGrid.FilterByCategory | src/components/portfolio-grid.tsx:136 | every kept project has the requested category; each matching project is kept as often as the catalog holds it, and nothing else is; the result is an order-preserving subsequence of the catalog |
| PortfolioGrid.VisibleProjects | src/components/portfolio-grid.tsx:134-136 | with "All" the grid shows exactly the catalog, in order; otherwise only projects of the active category, none of them dropped, in catalog order |
| PortfolioGrid.UnmatchedCategoryShowsNothing | src/components/portfolio-grid.tsx:136 | a filter value that no project carries yields an empty grid rather than an error |
| PortfolioGrid.FilterKeepsEveryMatch | src/components/portfolio-grid.tsx:136 | the number of visible cards equals the number of catalog projects in the active category |
| PortfolioGrid.Preview | src/components/portfolio-grid.tsx:286 | the preview is a prefix of the description of at most 100 characters followed by "..."; the whole description when it is at most 100 characters long |
| PortfolioGrid.HighlightedButtons | src/components/portfolio-grid.tsx:210-226 | a highlighted button is one of the rendered labels and has variant "solid" and colour "primary" |
| PortfolioGrid.ExactlyActiveButtonHighlighted | src/components/portfolio-grid.tsx:219-221 | with distinct labels, exactly the active filter's button is highlighted, and none when the filter has no button |
| PortfolioGrid.ActiveFilterHighlighted | src/components/portfolio-grid.tsx:88-221 | among the shipped filter labels, exactly the active one is highlighted |
| PortfolioGrid.CategoriesDistinct | src/components/portfolio-grid.tsx:88 | the seven filter labels are distinct and "All" comes first |
| PortfolioGrid.ProjectIdsUnique | src/components/portfolio-grid.tsx:37-86 | project ids are unique, as the card keys need |
| PortfolioGrid.ProjectCategoriesListed | src/components/portfolio-grid.tsx:37-88 | every project's category is a filter label other than "All" |
| PortfolioGrid.EachCategoryShowsOneProject | src/components/portfolio-grid.tsx:37-136 | in the shipped data, every filter other than "All" shows exactly one project |
| PortfolioGrid.Gallery.constructor | src/components/portfolio-grid.tsx:123-125 | at mount the filter is "All", nothing is selected and the modal is closed |
| PortfolioGrid.Gallery.Visible | src/components/portfolio-grid.tsx:134-136 | the rendered cards are the whole catalog under "All"; otherwise every card of the active category and no other, in catalog order |
| PortfolioGrid.Gallery.Shown | src/components/portfolio-grid.tsx:311-332 | the modal shows a project only while it is open and a project is selected, and then it shows the selected one |
| PortfolioGrid.Gallery.SelectCategory | src/components/portfolio-grid.tsx:225 | a filter press replaces the filter unconditionally and leaves the selection and the open flag alone |
| PortfolioGrid.Gallery.ProjectClick | src/components/portfolio-grid.tsx:129-132 | a card press selects that project and opens the modal; pressing while open just replaces the shown project |
| PortfolioGrid.Gallery.Close | src/components/portfolio-grid.tsx:397 | closing clears only the open flag; the selection and the filter keep their values; closing twice is closing once |
| ContactForm.Draft.With | src/components/contact-form.tsx:99-125 | a field handler replaces its own field and leaves the other three unchanged |
| ContactForm.Initial | src/components/contact-form.tsx:15-22 | at mount the four fields are empty, both flags are false, no timer is pending and nothing is logged |
| ContactForm.ButtonLabel | src/components/contact-form.tsx:137 | the button reads "Sending..." exactly while the form is submitting |
| ContactForm.StepKeepsValid | src/components/contact-form.tsx:24-44 | every event keeps the invariant: the flags are never both true, a send timer is pending exactly while submitting, a reset timer exactly while submitted, and the draft is empty while submitted |
| ContactForm.ReachableStatesValid | src/components/contact-form.tsx:15-44 | every state reachable from mount by enabled events satisfies that invariant |
| ContactForm.StatusAdvancesInOrder | src/components/contact-form.tsx:26-42 | edits keep the phase; submit, the send timer and the reset timer each move to the next phase of idle, submitting, submitted, idle, with none skipped |
| ContactForm.EditChangesOneField | src/components/contact-form.tsx:93-128 | an edit sets its field, leaves the other three and does not change the phase |
| ContactForm.EditsWhileSubmitting | src/components/contact-form.tsx:93-128 | while submitting, edits are accepted but change neither the pending payload, the phase nor the log |
| ContactForm.LogsDraftAtSubmit | src/components/contact-form.tsx:24-38 | after submit, any edits and the send timer, the log gained the draft as it was when submit was pressed; the form is submitted and the draft empty |
| ContactForm.ResetShowsEmptyForm | src/components/contact-form.tsx:41-43 | the reset timer returns to idle with the form rendered and the draft empty |
| ContactForm.Step | src/components/contact-form.tsx:24-44 | the log only grows, and only when the send timer fires, gaining the draft the submit captured; the send timer empties the draft; submit and the reset timer leave the draft alone |
| ContactForm.Enabled | src/components/contact-form.tsx:78-134 | edits and submits happen only while the form is rendered; a submit is possible exactly in the idle phase, since the button is loading while submitting |
| ContactForm.FormShown | src/components/contact-form.tsx:78 | the form is rendered in the idle phase and replaced by the success message in the submitted phase |
| ContactForm.Form.constructor | src/components/contact-form.tsx:15-22 | the component's cells start in the initial state |
| ContactForm.Form.ChangeField | src/components/contact-form.tsx:99-125 | the edited field is replaced and the rest of the state matches the edit step |
| ContactForm.Form.HandleSubmit | src/components/contact-form.tsx:24-26 | sets the submitting flag without checking any field and starts the send timer holding the current draft |
| ContactForm.Form.SendTimerCallback | src/components/contact-form.tsx:29-43 | logs the captured draft, clears the submitting flag, sets the submitted flag, empties all four fields and starts the reset timer |
| ContactForm.Form.ResetTimerCallback | src/components/contact-form.tsx:41-43 | clears the submitted flag and leaves the draft as it is |
| ThemeSwitcher.IsDark | src/components/theme-switcher.tsx:9 | the switch counts as dark exactly when the theme value is "dark" |
| ThemeSwitcher.Switch.constructor | src/components/theme-switcher.tsx:8 | the switch holds the theme hook's value and the shared document |
| ThemeSwitcher.NewTheme | src/components/theme-switcher.tsx:9-12 | the new theme is "light" exactly when the current one is "dark", and "dark" for every other value |
| ThemeSwitcher.SwitchLabel | src/components/theme-switcher.tsx:26-37 | the tooltip and aria-label name the theme a press switches to |
| ThemeSwitcher.Toggle | src/components/theme-switcher.tsx:11-23 | after a toggle, storage key "theme" holds the new theme and no other key changes; the root has "dark" exactly when the new theme is "dark" and no other class changes |
| ThemeSwitcher.ToggleTwiceRestores | src/components/theme-switcher.tsx:11-23 | from "light" or "dark", two toggles restore the theme and the root's "dark" membership, and storage holds the starting theme; from a root that agreed with its theme, the class list is exactly restored |
| ThemeSwitcher.ToggleFromOtherTheme | src/components/theme-switcher.tsx:9-12 | any other theme value toggles to "dark" and then to "light" |
| ThemeSwitcher.Switch.ToggleTheme | src/components/theme-switcher.tsx:11-23 | updates the theme, storage and root class list in place as Toggle says, and leaves the body alone |
| Dom.WithClass | src/components/theme-switcher.tsx:18-22 | after classList add or remove, the class is present exactly when asked for and no other class moves |
| AppShell.NavItems | src/App.tsx:12-17 | there are four navigation links |
| AppShell.NavigationAnchors | src/App.tsx:12-17 | the navigation is exactly four in-page anchors: #home, #portfolio, #about, #contact |
| AppShell.IsScrolledAt | src/App.tsx:26 | the header is scrolled exactly when the offset is above 20 |
| AppShell.ScrolledAboveThreshold | src/App.tsx:25-27 | the header counts as scrolled only above 20, strictly, and stays scrolled at any larger offset |
| AppShell.LogoFor | src/App.tsx:71 | the light logo is shown exactly in dark mode and the dark logo otherwise, in the header and the footer |
| AppShell.MirroredBody | src/App.tsx:34-42 | after the check the body has "dark" exactly when the root has it and no other body class changes |
| AppShell.MirrorIdempotent | src/App.tsx:34-42 | running the check twice equals running it once |
| AppShell.ToggleThenMirror | src/App.tsx:34-53 | after a theme toggle and the observer's check, the dark flag, the logo and the body class follow the new theme |
| AppShell.Shell.constructor | src/App.tsx:20-44 | at mount the scrolled and menu flags are false, and the mount-time check has run: the dark flag equals "root has dark", the body is mirrored, the root and storage are unchanged, and the light logo shows exactly when the root has "dark" |
| AppShell.Shell.Logo | src/App.tsx:71 | the header and footer show the light logo exactly while the dark flag is set |
| AppShell.Shell.MobileNavShown | src/App.tsx:106 | the mobile navigation is rendered exactly while the menu flag is set |
| AppShell.Shell.HandleScroll | src/App.tsx:25-27 | the scrolled flag becomes "offset > 20", and nothing else changes |
| AppShell.Shell.ToggleMobileMenu | src/App.tsx:98 | the menu button flips the menu flag |
| AppShell.Shell.NavLinkClick | src/App.tsx:114 | a mobile link closes the menu, so the mobile navigation is hidden, whatever the flag was |
| AppShell.Shell.CheckDarkMode | src/App.tsx:34-42 | the dark flag equals "root has dark", the body is mirrored, and the root and storage are unchanged |
| AppShell.HasClassMutation | src/App.tsx:47-51 | a batch triggers the check when any of its records names the "class" attribute, and an empty batch never does |
| AppShell.Shell.OnMutations | src/App.tsx:47-53 | a batch with a "class" record has the effect of one check; a batch without one changes nothing |

## Left out

- `src/components/hero-section.tsx`: scroll-linked animation values are floating-point; the rest is markup and 3D decoration.
- `src/components/about-section.tsx`: tab selection is done inside HeroUI's `Tabs` component, which is not part of this model; the rest is static data, random backgrounds and animation variants. So there is no panel state here and no rule that rejects unknown panels.
- `src/components/ThreeJSScene.tsx`, `src/components/AboutBackground.tsx`, `src/components/PortfolioIcon.tsx`, `src/index.tsx` and `tailwind.config.js`: rendering, bootstrap, image preloading and styling tokens.
- Animation timings, easing and springs, and the real lengths of the 1500 ms and 5000 ms timers. Each timer is a discrete event.
- HeroUI internals are foreign code. `useDisclosure` is the `isOpen` field; the modal's close paths are `Gallery.Close`.
- Submitting is enabled only while the form is rendered and the button is not loading. The model takes HeroUI's loading button as not pressable, so a second submit during a send cannot happen.
- Browser validation of the `isRequired` inputs and of the email type happens outside the handler and is not modelled. It can only withhold submit events, so the invariant and the results that hold after a given sequence of events still hold with it.
- ContactForm.LogsDraftAtSubmit: takes any draft, the empty one included, as one the browser lets through; with native validation an empty or malformed draft would never be submitted and so never logged.
- `setTheme` from `@heroui/use-theme` is a foreign call. The model records only the theme value it is given, not the storage key or classes that hook manages itself. Reading the stored theme at startup is also not modelled.
- Unmounting is not modelled: the shell removes its scroll listener and disconnects its observer on unmount, and neither cleanup is modelled. Nothing cancels the two contact-form timers, so they can fire after the form unmounts; the model has no unmount event.
- The mutation observer's delivery timing and batching belong to the browser. `Shell.OnMutations` models one delivered batch. Mutation records whose `attributeName` is null are `None`.
- `PortfolioGrid.Preview`: JavaScript's `substring` counts UTF-16 code units and the model counts characters. They agree on the shipped descriptions, which are plain ASCII.
- `AppShell.Shell.HandleScroll`: `window.scrollY` is a double; the model takes it as a real number, without NaN or rounding.
- The console output of the "View Case Study" button and the `isInView` visibility flag only drive logging and animation, and are not modelled.
- Project images, titles, tags and social links are carried as data where the catalog needs them; how they render is not modelled.
