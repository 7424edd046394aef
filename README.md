# Indalyxo promotional site — verified model of its UI state logic

The site is a single-page React application. Most of it is layout and animation.
This project models the parts that hold state and make decisions:

- the contact form: its validator, per-field error record, change handler and
  submit handler;
- the testimonial carousel, with its autoplay timer;
- the typewriter that spells out " INDALYXO";
- the portfolio's category filter, card tags and project-detail modal;
- the newsletter subscribe form;
- the navigation bar: scroll state, mobile menu and highlighting of the active link;
- the application shell: page router, current page and loading screen.

Each source file is one Dafny module:

| module | file | source |
|---|---|---|
| `Text` | `text.dfy` | ECMAScript white space and `String.prototype.trim` |
| `EmailPattern` | `email.dfy` | the regular expression of the contact form |
| `Contact` | `contact.dfy` | `src/sections/Contact.tsx` |
| `Testimonials` | `testimonials.dfy` | `src/sections/Testimonials.tsx` |
| `Portfolio` | `portfolio.dfy` | `src/sections/Portfolio.tsx` |
| `Newsletter` | `newsletter.dfy` | `src/sections/CTASection.tsx` |
| `Navbar` | `navbar.dfy` | `src/components/navigation/Navbar.tsx` |
| `App` | `app.dfy` | `src/App.tsx` |

The same design is used throughout. React state that event handlers change is a
`class` whose fields are the `useState` variables. Every handler, timer callback
and interval callback is a method with a `modifies` clause. Where the update
logic is more than an assignment, a pure function of the state specifies the
method (`AfterTick`, `Subscribe`, `ValidationErrors`, `Next`, `Prev`, `Dispatch`),
and lemmas about those functions state the properties that hold across several
events. Timers (`setTimeout`, `setInterval`) and the simulated two-second API call
are not durations here: each firing is an explicit method call.

Notes on the semantics modelled:

- **Remainder.** JavaScript `%` truncates toward zero. It is written out as
  `Testimonials.JsRem`, because Dafny's `%` is Euclidean.
- **Trimming.** `!s.trim()` is modelled as `Text.IsBlank`: every character is
  ECMAScript white space. The contract of `Text.Trim` proves the two are the same.
  `ContactForm.ValidateForm` itself calls `Trim`, as the source does.
- **E-mail regex.** `/^[^\s@]+@[^\s@]+\.[^\s@]+$/` is `EmailPattern.Matches`: a
  split of the whole string into a run, `@`, a run, `.` and a run. A run is one or
  more characters that are neither white space nor `@`.
- **Typewriter updater.** The callback passed to `setTypedText` reads the closure
  variable `index`. React queues an updater function and runs it at the next
  render, and that happens after the interval callback has run `index++`. So the
  tick that consumes position i appends `WORD.charAt(i + 1)`. The leading space
  of `' INDALYXO'` is never shown, and the ninth tick appends `charAt(9)`, which is
  the empty string. A full round therefore shows `INDALYXO`.
- **Modal clicks.** Click bubbling is modelled as the list of handlers between the
  target and the document. The close button (line 260) sits inside the modal body
  (line 249). The body stops propagation, so a click on the body never reaches the
  backdrop's handler (line 242).

## Model

| member | source | states |
|---|---|---|
| `Text.Trim` | src/sections/Contact.tsx:22 | the trimmed string is empty exactly when every character is white space; otherwise it starts and ends with a non-white-space character |
| `EmailPattern.MatchesIffWellShaped` | src/sections/Contact.tsx:28 | the pattern accepts exactly the strings that have no white space, one and only one `@` with a character before it, and a `.` after the `@` with at least one character on each side |
| `EmailPattern.LeadingWhitespaceRejected` | src/sections/Contact.tsx:28 | the pattern is tested on the untrimmed value, so a leading white-space character makes it fail |
| `EmailPattern.MatchedIsNotBlank` | src/sections/Contact.tsx:26-28 | an address the pattern accepts is never blank |
| `Contact.FormData.With` | src/sections/Contact.tsx:58-60 | the edited field takes the new value and the other three fields keep theirs |
| `Contact.ValidationErrors` | src/sections/Contact.tsx:19-35 | the phone field never gets an entry, and every stored message is non-empty (truthy) |
| `Contact.NameError` | src/sections/Contact.tsx:22-24 | there is a name error exactly when the name is blank after trimming, and its text is 'Name is required' |
| `Contact.MessageError` | src/sections/Contact.tsx:32-34 | there is a message error exactly when the message is blank after trimming, and its text is 'Message is required' |
| `Contact.EmailError` | src/sections/Contact.tsx:26-30 | a blank e-mail gets 'Email is required'; a non-blank one that fails the pattern gets 'Please enter a valid email'; there is no e-mail entry exactly when the pattern matches |
| `Contact.IsValidIff` | src/sections/Contact.tsx:19-38 | the record is empty (validation passes) exactly when the name and the message are not blank and the e-mail matches the pattern |
| `Contact.PhoneIrrelevant` | src/sections/Contact.tsx:19-38 | changing the phone number never changes the error record |
| `Contact.ValidFieldHasNoError` | src/sections/Contact.tsx:20-36 | the record is rebuilt from the current data only, so a field that is now valid has no entry, whatever the previous record held |
| `Contact.ContactForm.constructor` | src/sections/Contact.tsx:9-17 | all four fields are empty, there are no errors, and the form is neither submitting nor submitted |
| `Contact.ContactForm.ValidateForm` | src/sections/Contact.tsx:19-38 | replaces `errors` wholesale with the freshly built record, and returns true exactly when that record has no keys |
| `Contact.ContactForm.HandleChange` | src/sections/Contact.tsx:58-65 | sets only the named field; clears that field's error to '' only if it was set; leaves every other error untouched |
| `Contact.ContactForm.HandleSubmit` | src/sections/Contact.tsx:40-45 | validates; an invalid form returns with only the errors rewritten; a valid one enters the submitting state |
| `Contact.ContactForm.ApiResolved` | src/sections/Contact.tsx:48-52 | after the simulated API call the form is not submitting, is submitted, and all four fields are '' |
| `Contact.ContactForm.SuccessTimeout` | src/sections/Contact.tsx:55 | the five-second timer hides the success message |
| `Contact.Submit` | src/sections/Contact.tsx:40-52 | from the idle state, an invalid form stays idle with its data unchanged; a valid one ends submitted, not submitting, with every field '' |
| `Testimonials.Restart` | src/sections/Testimonials.tsx:32-34 | `startTyping` empties the text, resets the index and starts typing |
| `Testimonials.AfterTick` | src/sections/Testimonials.tsx:36-44 | while characters remain, a tick advances the index by one and appends the character at the advanced index (`charAt`, empty past the end); once the word is consumed it stops the interval and schedules the restart; the shown text stays WORD from its second character up to the index |
| `Testimonials.AfterRestartTimeout` | src/sections/Testimonials.tsx:41-42 | the restart timeout starts typing again from empty, and does nothing unless a restart is pending |
| `Testimonials.AfterUnmount` | src/sections/Testimonials.tsx:49-52 | the cleanup stops both timers and keeps the text |
| `Testimonials.TicksType` | src/sections/Testimonials.tsx:36-44 | from a consistent state, k ticks advance the index by k, up to the length of WORD; the interval stops only after the word is complete |
| `Testimonials.TicksStayAwaiting` | src/sections/Testimonials.tsx:37-42 | once the interval has stopped, further ticks change nothing |
| `Testimonials.TypedAfterRestart` | src/sections/Testimonials.tsx:33-39 | after k ticks since a restart the text is WORD from its second character up to position k; from the eighth tick on it is exactly 'INDALYXO', and it never holds a space |
| `Testimonials.Typewriter.constructor` | src/sections/Testimonials.tsx:47 | mounting runs `startTyping` once |
| `Testimonials.Typewriter.Tick` | src/sections/Testimonials.tsx:36-44 | the interval callback changes the state as `AfterTick` says |
| `Testimonials.Typewriter.RestartTimeout` | src/sections/Testimonials.tsx:42 | the restart callback changes the state as `AfterRestartTimeout` says |
| `Testimonials.Typewriter.Unmount` | src/sections/Testimonials.tsx:49-52 | the cleanup changes the state as `AfterUnmount` says |
| `Testimonials.Typewriter.RunTicks` | src/sections/Testimonials.tsx:36-44 | k firings of the interval in a row leave the state `Ticks(old state, k)` |
| `Testimonials.JsRem` | src/sections/Testimonials.tsx:87 | the truncating remainder has the dividend's sign, is smaller than n in magnitude, and subtracts n at most once below 2n |
| `Testimonials.Next` | src/sections/Testimonials.tsx:100 | for an index in [0, n), the result stays in [0, n): it is i+1, or 0 after the last slide |
| `Testimonials.Prev` | src/sections/Testimonials.tsx:95 | for an index in [0, n), the result stays in [0, n): it is i-1, or n-1 before the first slide |
| `Testimonials.PrevNextInverse` | src/sections/Testimonials.tsx:95-100 | previous after next, and next after previous, return to the original index |
| `Testimonials.NextTimesAdd` | src/sections/Testimonials.tsx:98-101 | a steps forward followed by b steps forward equal a+b steps forward |
| `Testimonials.NextTimesCountsUp` | src/sections/Testimonials.tsx:100 | below the last slide, k steps forward add k |
| `Testimonials.FullCycle` | src/sections/Testimonials.tsx:98-101 | n consecutive steps forward return to the start |
| `Testimonials.Carousel.constructor` | src/sections/Testimonials.tsx:22-23 | the carousel starts on slide 0 with autoplay on |
| `Testimonials.Carousel.AutoplayTick` | src/sections/Testimonials.tsx:83-91 | the tick advances to the next slide only while autoplay is on, and never changes the flag |
| `Testimonials.Carousel.GoToPrev` | src/sections/Testimonials.tsx:93-96 | turns autoplay off and moves to the previous slide, staying in range |
| `Testimonials.Carousel.GoToNext` | src/sections/Testimonials.tsx:98-101 | turns autoplay off and moves to the next slide, staying in range |
| `Testimonials.Carousel.GoToSlide` | src/sections/Testimonials.tsx:103-106 | turns autoplay off and sets the index to exactly the dot's index, which is always in [0, n) |
| `Testimonials.Stars` | src/sections/Testimonials.tsx:158 | a card renders exactly `rating` stars |
| `Portfolio.FilterByCategory` | src/sections/Portfolio.tsx:100 | every kept project comes from the list and has exactly the filter's category; every project of that category is kept |
| `Portfolio.FilterKeepsOrder` | src/sections/Portfolio.tsx:100 | the filtered list is a subsequence of the project list: the original relative order is kept |
| `Portfolio.FilterKeepsEveryCopy` | src/sections/Portfolio.tsx:100 | the filtered list holds every copy of each project of the category, as many as the input holds, and no copy of any other project |
| `Portfolio.FilteredProjects` | src/sections/Portfolio.tsx:98-100 | 'all' shows exactly the list given; any other value shows exactly the projects of the list whose category equals it; the order is kept |
| `Portfolio.FilteredKeepsEveryCopy` | src/sections/Portfolio.tsx:98-100 | with a category selected, the shown list holds each project of that category as many times as the list does, and nothing else |
| `Portfolio.FilterIsCaseSensitive` | src/sections/Portfolio.tsx:30-100 | 'web' keeps projects 1 and 4 and drops 2 and 3 (category 'Web'); 'Web' keeps 2 and 3 |
| `Portfolio.CardTags` | src/sections/Portfolio.tsx:196 | a card shows at most three tags: the first three, in order, or all of them when there are fewer |
| `Portfolio.ClickEffect` | src/sections/Portfolio.tsx:160-260 | clicking a card selects its project; the backdrop and the close button clear the selection; a click inside the modal keeps it |
| `Portfolio.PortfolioView.constructor` | src/sections/Portfolio.tsx:25-26 | nothing is selected, the filter is 'all', and every project is visible |
| `Portfolio.PortfolioView.Click` | src/sections/Portfolio.tsx:160-262 | a click changes only the selection, as the handlers on its bubbling path do; `activeFilter` lies outside every method's frame |
| `Newsletter.Subscribe` | src/sections/CTASection.tsx:15-22 | an empty address changes nothing; any other address, white space included, subscribes and clears the field |
| `Newsletter.ResetTimeout` | src/sections/CTASection.tsx:20 | the timer hides the thank-you message and leaves the address alone |
| `Newsletter.TypeEmail` | src/sections/CTASection.tsx:176 | typing stores the input verbatim and leaves the subscription flag alone |
| `Newsletter.SubscribeIdempotent` | src/sections/CTASection.tsx:17-19 | a second submit right after a successful one changes nothing and schedules no timer |
| `Newsletter.WhitespaceAccepted` | src/sections/CTASection.tsx:17 | the emptiness check does not trim: an address of spaces subscribes |
| `Newsletter.NewsletterForm.constructor` | src/sections/CTASection.tsx:12-13 | the address is empty and the flag is false |
| `Newsletter.NewsletterForm.HandleSubscribe` | src/sections/CTASection.tsx:15-22 | changes the state as `Subscribe` says, and schedules the reset exactly when the address was non-empty |
| `Newsletter.NewsletterForm.OnResetTimeout` | src/sections/CTASection.tsx:20 | changes the state as `ResetTimeout` says |
| `Newsletter.NewsletterForm.OnEmailInput` | src/sections/CTASection.tsx:176 | changes the state as `TypeEmail` says |
| `Navbar.NavLinkIdsDistinct` | src/components/navigation/Navbar.tsx:11-17 | the five link ids are pairwise distinct |
| `Navbar.HighlightedFrom` | src/components/navigation/Navbar.tsx:74 | an index is listed exactly when that link's id equals the current page |
| `Navbar.HighlightedLinks` | src/components/navigation/Navbar.tsx:74-80 | at most one link is highlighted, and exactly one when the current page is one of the five ids |
| `Navbar.HighlightedStrictlyIncreasing` | src/components/navigation/Navbar.tsx:69-80 | the highlighted indices come in display order, without repeats |
| `Navbar.NavbarState.constructor` | src/components/navigation/Navbar.tsx:20-21 | the bar starts unscrolled with the menu closed |
| `Navbar.NavbarState.HandleScroll` | src/components/navigation/Navbar.tsx:24-26 | `isScrolled` holds exactly when scrollY > 50, so exactly 50 is not scrolled |
| `Navbar.NavbarState.HandleNavClick` | src/components/navigation/Navbar.tsx:32-36 | requests exactly the given page and leaves the mobile menu closed, whatever its prior state |
| `Navbar.NavbarState.ToggleMobileMenu` | src/components/navigation/Navbar.tsx:109 | the menu button flips the menu, so toggling twice restores it |
| `Navbar.NavbarState.ClickLogo` | src/components/navigation/Navbar.tsx:55 | the logo requests 'home' and closes the menu |
| `Navbar.NavbarState.ClickGetStarted` | src/components/navigation/Navbar.tsx:95-147 | both Get Started buttons request 'contact' and close the menu |
| `App.SwitchArm` | src/App.tsx:173-186 | the default arm is taken exactly when the id is none of the five case labels |
| `App.RenderPage` | src/App.tsx:172-187 | the five ids map to their sections, and every other string maps to the home page |
| `App.NavLinksAreRouted` | src/App.tsx:173-183 | every navigation-bar id reaches its own arm, never the default, and distinct links reach distinct sections |
| `App.AppState.constructor` | src/App.tsx:162-163 | the current page starts as 'home', with loading on, and only the loading screen shows |
| `App.AppState.Rendered` | src/App.tsx:193-208 | while loading, only the loading screen shows; afterwards the Navbar, the current page's section and the Footer show, in that order |
| `App.AppState.HandlePageChange` | src/App.tsx:166-169 | the current page becomes exactly the id given, even an unknown one |
| `App.AppState.LoadingComplete` | src/App.tsx:194 | loading completion turns loading off; no method turns it back on |
| `App.AppState.NavigateFromNavbar` | src/components/navigation/Navbar.tsx:32-35 | a link click closes the menu, the shell switches to the link's id, and the content shows that link's section |

## Left out

- src/components/ui-custom/TechSphere.tsx, the 3D hero scene, is not part of this model. It is floating-point trigonometry, `Math.random` particle positions, and rotations driven by a library clock inside three.js frame callbacks. Dafny has no trigonometry, and the library is not visible.
- src/sections/Hero.tsx is not part of this model: mouse-listener plumbing, floating-point percentages, and `AnimatedCounter`, whose source is not available.
- src/sections/About.tsx, src/sections/Features.tsx and src/sections/Services.tsx are static content; Services also has a one-variable modal. src/components/navigation/Footer.tsx only forwards to `onPageChange`. src/components/ui-custom/ThemeToggle.tsx depends on a theme context whose source is not available.
- Real time is left out. Timer delays (120 ms, 2 s, 5 s) are not modelled; each firing is an explicit method call, in any order the caller chooses.
- Rendering side effects are left out: `window.scrollTo`, registering and removing the scroll listener, the map iframe, framer-motion animations, CSS classes and JSX layout.
- The browser's constraint validation is left out. Both e-mail inputs have `type="email"`, and the newsletter input is also `required`. A browser may refuse to submit, or may strip white space, before the handlers run; the model is of the handlers as written.
- Strings are sequences of Unicode scalar values, not UTF-16 code units. This makes no difference to the characters that these checks test.
- Project descriptions beyond the short one, images and GitHub links are not carried in `Portfolio.Project`: nothing the model states depends on them.
- React's scheduling is left out: batching, StrictMode double-invoked effects, and re-subscribing the autoplay interval when the flag changes.
- Testimonials.JsRem: its contract states the sign, the bound, and the exact value below 2n, which is the range the carousel uses. It does not state the general identity a = q·n + r, which would need nonlinear arithmetic.
- Testimonials.AfterTick: assumes the queued updater runs at the next render, after `index++`. As an internal optimisation, React can also run an updater as soon as it is queued, when the component has no pending update. A tick then appends `WORD.charAt(i)`, so the leading space appears first. That reading is not modelled.
