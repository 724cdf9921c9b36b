# Portfolio view state, in Dafny

A model of the client-side logic of a single-page developer portfolio (a
React site). The page has four small state machines and one matching rule:

- **Page shell** (`HomePage`, from `src/pages/Home.tsx`). The `Portfolio` class holds the
  theme (`isDark`), the active section and the mobile-menu flag. The theme is
  loaded from the saved `"theme"` entry, or from the platform's
  prefers-dark hint when that entry is absent or empty, and is written back as
  `"dark"` or `"light"`. The scroll handler walks the five sections in order.
  It picks the first present section whose range `[top, top+height)` contains
  `scrollY + 100`, and leaves the active section alone when none does.
  `FindSection` is the pure specification of that search. `HandleScroll` is
  the loop with its early exit, proved against `FindSection`.
- **Navigation** (`Navigation`, from `src/components/ui/navigation.tsx`). It
  holds the nav-item table and `scrollToSection`, which closes the menu only
  when the target element exists. It also renders the item highlighting and
  the mobile list, which is shown only while the menu is open.
- **Contact form** (`ContactSection`, from `src/components/sections/Contact.tsx`).
  It covers field updates, the payload posted to the form-relay service and the
  three ways a submission can end. It also covers the busy flag that disables
  the submit button.
- **Projects** (`ProjectsSection`, from `src/components/sections/Projects.tsx`).
  It holds the project table, the links on each card, and the image modal with
  its Escape-key handler.

The DOM, storage, the media query and the network are parameters. A
`Document` maps each present element id to its box. The saved theme is an
`Option<string>`, and the hint is a `bool`. A submission's result is an
`Outcome` value.

Two details of the code are easy to misread:
- Navigating closes the menu only when the target element exists. A missing
  id leaves the menu as it was.
- An empty saved theme string is falsy, so it falls back to the platform hint
  just like an absent one.

## Model

| member | source | states |
|---|---|---|
| `HomePage.Portfolio.constructor` | src/pages/Home.tsx:14-16 | initial state: dark theme, "hero" active, menu closed; the active-section invariant holds |
| `HomePage.ThemeFromStorage` | src/pages/Home.tsx:20-25 | a non-empty saved string gives dark exactly when it is "dark"; an absent or empty one gives the platform hint |
| `HomePage.ThemeToken` | src/pages/Home.tsx:31 | the stored token is "dark" or "light", and loading it gives back the same theme whatever the hint (save/load round trip) |
| `HomePage.Portfolio.LoadTheme` | src/pages/Home.tsx:19-26 | the mount effect sets the theme to `ThemeFromStorage` of the saved entry and hint, touching nothing else |
| `HomePage.Portfolio.PersistTheme` | src/pages/Home.tsx:29-32 | the document's dark flag equals the theme and the stored token is `ThemeToken` of it |
| `HomePage.Portfolio.ToggleTheme` | src/pages/Home.tsx:62 | the theme is negated; section and menu unchanged |
| `HomePage.ToggleThemeTwice` | src/pages/Home.tsx:62 | two toggles restore the theme and leave the rest unchanged |
| `HomePage.Portfolio.ToggleMobileMenu` | src/pages/Home.tsx:94 | only the menu flag flips |
| `HomePage.ThemeSurvivesReload` | src/pages/Home.tsx:19-32 | the theme persisted by one page view is the theme the next page view loads, whatever its hint |
| `HomePage.FindSection` | src/pages/Home.tsx:37-49 | a selected section is one of the five ids, has an element, and its range contains the position (missing sections never win) |
| `HomePage.FindSectionIsFirstMatch` | src/pages/Home.tsx:40-47 | the first present section, in list order, whose range contains the position is the one selected; later sections do not matter |
| `HomePage.FindSectionFound` | src/pages/Home.tsx:40-47 | conversely, a selected section is the first match in list order |
| `HomePage.FindSectionNone` | src/pages/Home.tsx:40-49 | nothing is selected exactly when no present section's range contains the position |
| `HomePage.FindSectionSkip` | src/pages/Home.tsx:40-48 | skipping a prefix of sections that do not match leaves the result unchanged |
| `HomePage.Portfolio.HandleScroll` | src/pages/Home.tsx:36-50 | the active section becomes the first match for `scrollY + 100`, or stays unchanged when there is none; theme and menu untouched; the active section stays one of the ids |
| `HomePage.LookaheadExample` | src/pages/Home.tsx:38-47 | with hero at [0,800) and projects at [800,1600), scroll offset 750 makes "projects" active |
| `Navigation.NavItemsFollowSections` | src/components/ui/navigation.tsx:10-16 | the nav items list the scroll tracker's five ids in the same order |
| `Navigation.SectionIdsDistinct` | src/pages/Home.tsx:37 | the five section ids are pairwise distinct |
| `Navigation.ScrollToSection` | src/components/ui/navigation.tsx:19-25 | it scrolls exactly when the element exists; it then closes the menu and otherwise leaves it; it never writes the active section or theme |
| `Navigation.ScrollToSectionTwice` | src/components/ui/navigation.tsx:23 | repeating the navigation leaves the menu closed |
| `Navigation.ItemViews` | src/components/ui/navigation.tsx:33-47 | one button per nav item, in order, highlighted exactly when its id equals the active section |
| `Navigation.Render` | src/components/ui/navigation.tsx:54-69 | the mobile list is present exactly while the menu is open, and shows the same items and highlighting as the desktop list |
| `Navigation.ExactlyOneHighlighted` | src/components/ui/navigation.tsx:38 | when the active section is one of the ids, exactly one item is highlighted |
| `Navigation.NoneHighlighted` | src/components/ui/navigation.tsx:42 | when it is not, no item is highlighted |
| `Navigation.PageHighlightsOneItem` | src/components/ui/navigation.tsx:38 | since the page's active section is always an id, the rendered navigation always highlights exactly one item |
| `ContactSection.ContactForm.constructor` | src/components/sections/Contact.tsx:12-18 | empty fields, not busy, no status |
| `ContactSection.WithField` | src/components/sections/Contact.tsx:58-63 | the named field takes the new value, every other field keeps its value, and an unknown name leaves the three fields unchanged |
| `ContactSection.WithFieldOwnValue` | src/components/sections/Contact.tsx:58-63 | writing a field's current value back changes nothing |
| `ContactSection.WithFieldTwice` | src/components/sections/Contact.tsx:58-63 | a later change of a field overrides an earlier one |
| `ContactSection.ContactForm.HandleChange` | src/components/sections/Contact.tsx:58-63 | the fields become `WithField` of the old fields; busy flag and status unchanged |
| `ContactSection.BuildPayload` | src/components/sections/Contact.tsx:26-32 | name, email and message are carried unchanged; subject is "New Portfolio Contact from " followed by the name; from_name is the name and replyto the email |
| `ContactSection.StatusFor` | src/components/sections/Contact.tsx:41-52 | the status is a success exactly for a truthy 2xx reply and then reads "Message sent successfully!"; a falsy reply gives "Failed to send..." and a transport error or non-2xx reply "An error occurred..." |
| `ContactSection.StatusTellsOutcomes` | src/components/sections/Contact.tsx:41-52 | the three outcomes give three different statuses |
| `ContactSection.ContactForm.StartSubmit` | src/components/sections/Contact.tsx:22-32 | before the outcome is known: busy, status cleared, fields untouched, payload built from the fields |
| `ContactSection.ContactForm.FinishSubmit` | src/components/sections/Contact.tsx:41-55 | status from the outcome; fields cleared only on success and kept otherwise; never busy afterwards |
| `ContactSection.ContactForm.HandleSubmit` | src/components/sections/Contact.tsx:20-56 | the whole submission: payload of the fields at submit time, status, fields cleared only on success, button enabled again |
| `ContactSection.ResubmitAfterFailure` | src/components/sections/Contact.tsx:44-52 | after a failed submission the form sends the very same payload again |
| `ContactSection.SubmitButton` | src/components/sections/Contact.tsx:213-224 | the button is disabled exactly while busy, and says "Sending..." exactly then |
| `ProjectsSection.TitlesDistinct` | src/components/sections/Projects.tsx:15-71 | project titles, used as list keys, are pairwise distinct |
| `ProjectsSection.LiveDemoHasAddress` | src/components/sections/Projects.tsx:15-71 | a project has a live demo exactly when its site address is not the placeholder "#" |
| `ProjectsSection.CardLinks` | src/components/sections/Projects.tsx:146-169 | every card has the "Code" link to its repository; "Visit Site" is added exactly for a live demo and points at its site |
| `ProjectsSection.VisitSiteNeverPlaceholder` | src/components/sections/Projects.tsx:157-159 | no "Visit Site" link on the page points at "#" |
| `ProjectsSection.ImageModal.constructor` | src/components/sections/Projects.tsx:75-76 | the modal starts closed with no image |
| `ProjectsSection.ImageModal.Visible` | src/components/sections/Projects.tsx:179 | the enlarged image is shown exactly when the modal is open and the selected image is truthy (non-null, non-empty); it is never shown without a selected image |
| `ProjectsSection.ImageModal.OpenModal` | src/components/sections/Projects.tsx:79-83 | open, with the given image selected; visible exactly when the image is non-empty |
| `ProjectsSection.ImageModal.CloseModal` | src/components/sections/Projects.tsx:86-90 | closed, selection reset to null, not visible |
| `ProjectsSection.ImageModal.HandleKeyDown` | src/components/sections/Projects.tsx:94-98 | Escape closes an open modal; any other key, or Escape while closed, changes nothing |
| `ProjectsSection.OpenCardThenEscape` | src/components/sections/Projects.tsx:179 | clicking any card's image shows the modal, and Escape then hides it |

## Left out

- Debouncing and listener lifecycle: the 100 ms trailing debounce, adding and removing the scroll and keydown listeners, and cancelling a pending call on teardown are timer and event-loop behaviour. The model covers only the handler body that runs when the call fires.
- React scheduling: state setters are plain assignments, and the theme is loaded before it is first persisted. Re-render order and effect timing are not modelled.
- Browser environment: `localStorage`, `matchMedia`, `getElementById`, `offsetTop`/`offsetHeight`, `scrollIntoView` and the document's class list are inputs or outputs. The `scrolled` result stands for the call to `scrollIntoView`, and `darkClass` for the class-list toggle.
- Fractional scroll offsets: `scrollY` and element boxes are integers. Nothing but `+ 100` and comparisons is done with them.
- Network and secrets: the POST to the relay service and its JSON handling are replaced by `Outcome`. The access key from the build environment is a parameter. The console logging of errors and of modal actions is left out.
- `ContactSection.WithField`: a change event whose input name is not one of the three fields adds a new key to the JavaScript object. The model keeps only the three fields, which stay unchanged.
- `ContactSection.StatusFor`: the reply's `success` field is reduced to its truthiness, a `bool`.
- Presentation: animations, styling, icons, the contact details and social links, project descriptions and the hidden `html` input. Image assets are represented by their file names.
- The hero section's `scrollToProjects`: a smooth scroll to the "projects" element when it exists. It writes no state, so there is nothing to model beyond the browser call.
- Files with no logic: the skills and about sections, the floating background elements and the application root. These are static content, animation or mounting.
