# JuniorDream home: the site's state machines in Dafny

JuniorDream's web site is a React single-page application, and it is mostly
presentational. Its behaviour lives in a handful of small state machines
inside the components. This project models each of them as an immutable
datatype with pure step functions, and proves what the components promise
about them:

- **Enrollment wizard** (`EnrollmentForm`, `enrollment_form.dfy`): a three-step
  form with presence-only validation. The Next button is disabled while the
  step is invalid, Next on step 3 hands the form to the page, and Prev on
  step 1 calls an optional `onBack`.
- **Parent onboarding flow** (`OnboardingFlow`, `onboarding_flow.dfy`, with
  `TagToggle`, `tag_toggle.dfy`): a six-step counter with no validation gating,
  a career choice, and strength and challenge tags that toggle in and out of
  lists.
- **Payment page** (`PaymentPage`, `payment_page.dfy`, with `PriceParsing`,
  `price_parsing.dfy`): amount selection by billing cycle, and yearly savings
  computed by JavaScript `String.replace` and `parseInt` on fee strings such as
  `"₹2,999"`. It also covers the pay guard and the Idle → Processing → Idle
  cycle that ends in `onPaymentSuccess`.
- **Application shell** (`HashRouter`, `hash_router.dfy`): the URL fragment
  becomes `currentPage`, which is dispatched to a page with a home fallback.
  The footer is hidden only on `join`.
- **Mentor filter** (`MentorsPage`), **FAQ accordion** (`FaqAccordion`),
  **testimonial carousel** (`TestimonialCarousel`) and **navigation bar**
  (`GlassNavbar`): a category filter with an `All` identity case, an
  at-most-one-open toggle, an index advanced modulo the list length, and the
  navbar's scroll-direction hiding and mobile-menu rules.

Browser effects become data. A timer firing or an interval tick is an event.
A write to `window.location.hash` is an output value. The enrollment wizard's
`onComplete` and `onBack` callbacks and the payment page's `onPaymentSuccess`
callback are effects returned next to the new state. The enrollment wizard, the onboarding flow, the payment page, the
carousel and the navigation bar each have an `Event` datatype and a `Run` fold
over event sequences. The FAQ accordion folds over a sequence of clicked
question indices, and the shell over a sequence of URL fragments. The mentor
filter has no events: it is a function of the selected category. Invariants
of the folds are proved by induction over the sequence.

## Model

| member | source | states |
|---|---|---|
| EnrollmentForm.Initial | src/components/EnrollmentForm.tsx:37-56 | The wizard mounts at step 1 with all twelve fields equal to the empty string. |
| EnrollmentForm.Update | src/components/EnrollmentForm.tsx:58-60 | Updating field f to v makes f read v and leaves every other field as it was. |
| EnrollmentForm.IsStepValid | src/components/EnrollmentForm.tsx:78-90 | A step is valid iff it is 1, 2 or 3 and every field that step requires is non-empty; any other step value is invalid. |
| EnrollmentForm.NextStep | src/components/EnrollmentForm.tsx:62-68 | Below step 3 the step goes up by one with no effect; at step 3 the state is kept and the form is emitted unmodified; the form is never changed. |
| EnrollmentForm.PrevStep | src/components/EnrollmentForm.tsx:70-76 | Above step 1 the step goes down by one; at step 1 nothing changes and onBack is requested exactly when one was supplied. |
| EnrollmentForm.PressNext | src/components/EnrollmentForm.tsx:394-397 | A press of the Next button changes something iff the step is valid: on an invalid step nothing changes, on a valid step below 3 the step goes up by one with no effect, and the form is handed over iff the step is valid and is step 3, the snapshot being the current form. |
| EnrollmentForm.Apply | src/components/EnrollmentForm.tsx:381-397 | Typing into a field the current step does not render does nothing, and typing into one it renders updates exactly that field and nothing else; Next is exactly the Next-button handler and Prev exactly the Prev-button handler; the form is handed over iff Next is pressed on a valid step 3; onBack is requested iff Prev is pressed on step 1 and onBack was supplied. |
| EnrollmentForm.Run | src/components/EnrollmentForm.tsx:381-397 | A run yields exactly one effect per user event. |
| EnrollmentForm.InitialIsGood | src/components/EnrollmentForm.tsx:37-56 | The mounted wizard satisfies the reachability invariant: the step is in 1..3 and every earlier step is complete. |
| EnrollmentForm.RenderedOnlyHere | src/components/EnrollmentForm.tsx:93-340 | A field that one step renders is required by no other step. |
| EnrollmentForm.EditKeepsOtherSteps | src/components/EnrollmentForm.tsx:58-60 | Editing a field the current step renders never changes the validity of any other step. |
| EnrollmentForm.ApplyKeepsGood | src/components/EnrollmentForm.tsx:62-76 | Every event keeps the step in 1..3 with all earlier steps complete; a form handed over passes all three steps' checks. |
| EnrollmentForm.RunKeepsGood | src/components/EnrollmentForm.tsx:62-76 | Along any event sequence the invariant holds, and every form emitted to onComplete passes all three steps' checks. |
| EnrollmentForm.HappyPath | src/components/EnrollmentForm.tsx:62-68 | From step 1 with a complete form, three presses of Next emit that exact form once, on the third press. |
| EnrollmentForm.OptionalFieldsIgnored | src/components/EnrollmentForm.tsx:83-84 | The email and alternate phone fields never affect whether any step is valid. |
| EnrollmentForm.NextPrevInverse | src/components/EnrollmentForm.tsx:62-76 | Inside the wizard, Prev undoes Next and Next undoes Prev. |
| TagToggle.RemoveAll | src/pages/OnboardingFlow.tsx:93 | Filtering a tag out removes every occurrence of it and keeps the count of every other tag. |
| TagToggle.Toggle | src/pages/OnboardingFlow.tsx:92-94 | Toggling flips the membership of the toggled tag and keeps the membership of every other tag. |
| TagToggle.RemoveAllAppend | src/pages/OnboardingFlow.tsx:93 | Filtering distributes over concatenation, so the surviving tags keep their order. |
| TagToggle.RemoveAllAbsent | src/pages/OnboardingFlow.tsx:93 | Filtering out an absent tag returns the list unchanged. |
| TagToggle.RemoveAllKeepsDistinct | src/pages/OnboardingFlow.tsx:93 | Filtering a duplicate-free list leaves it duplicate-free. |
| TagToggle.ToggleKeepsDistinct | src/pages/OnboardingFlow.tsx:92-94 | Toggling preserves duplicate-freedom of the list. |
| TagToggle.ToggleTwiceAbsent | src/pages/OnboardingFlow.tsx:92-94 | Toggling an absent tag twice restores the original list exactly. |
| TagToggle.ToggleTwicePresent | src/pages/OnboardingFlow.tsx:92-94 | Toggling a present tag twice moves it to the end and restores the membership of every tag. |
| OnboardingFlow.Initial | src/pages/OnboardingFlow.tsx:65-75 | The flow starts at step 1 with every text field empty, no career and empty strengths and challenges. |
| OnboardingFlow.HandleNext | src/pages/OnboardingFlow.tsx:77-81 | Below step 6 the step goes up by one, at step 6 nothing changes, and the form never matters or changes. |
| OnboardingFlow.HandleBack | src/pages/OnboardingFlow.tsx:83-87 | Above step 1 the step goes down by one, at step 1 nothing changes, and the form is kept. |
| OnboardingFlow.SetText | src/pages/OnboardingFlow.tsx:219-282 | Typing into one text field sets it and leaves every other field, the career and both tag lists unchanged. |
| OnboardingFlow.ChooseCareer | src/pages/OnboardingFlow.tsx:304 | Choosing a career sets dreamCareer to that title, replacing any previous choice, and changes nothing else. |
| OnboardingFlow.ToggleStrength | src/pages/OnboardingFlow.tsx:89-96 | Toggling a strength flips its membership, keeps every other strength's membership, and leaves challenges and all other fields unchanged. |
| OnboardingFlow.ToggleChallenge | src/pages/OnboardingFlow.tsx:98-105 | Toggling a challenge flips its membership, keeps every other challenge's membership, and leaves strengths and all other fields unchanged. |
| OnboardingFlow.NavBarShown | src/pages/OnboardingFlow.tsx:457 | The Back/Continue bar is drawn on every step but 6; NavBarShownIffNextMoves proves it is drawn exactly when Continue would move. |
| OnboardingFlow.BackDisabled | src/pages/OnboardingFlow.tsx:461 | Back is disabled on step 1; BackDisabledIffNoop proves it is disabled exactly when pressing it would do nothing. |
| OnboardingFlow.Apply | src/pages/OnboardingFlow.tsx:77-105 | Continue is exactly handleNext, since the bar is hidden only where Continue cannot move; Back is handleBack except on step 6, where the bar is hidden; other events never move the step; typing sets the typed field on step 2 and nothing otherwise; picking a career sets it on step 3 when it is an offered title; tapping a strength or challenge toggles it on step 4 or 5 when it is an offered tag; otherwise the flow is unchanged. |
| OnboardingFlow.BackDisabledIffNoop | src/pages/OnboardingFlow.tsx:461 | Within 1..6, Back is disabled exactly when pressing it would do nothing. |
| OnboardingFlow.NavBarShownIffNextMoves | src/pages/OnboardingFlow.tsx:457 | Within 1..6, the Back/Continue bar is shown exactly when Continue would move. |
| OnboardingFlow.NextBackInverse | src/pages/OnboardingFlow.tsx:77-87 | Inside 1..6, Back undoes Continue and Continue undoes Back. |
| OnboardingFlow.ApplyKeepsGood | src/pages/OnboardingFlow.tsx:77-105 | Each event keeps the step in 1..6, the career empty or one of the offered titles, and both tag lists duplicate-free and drawn from their options. |
| OnboardingFlow.ReachableIsGood | src/pages/OnboardingFlow.tsx:77-105 | The invariant holds after any sequence of events. |
| OnboardingFlow.InitialIsGood | src/pages/OnboardingFlow.tsx:65-75 | The initial flow satisfies the invariant. |
| OnboardingFlow.ContinueNeedsNoInput | src/pages/OnboardingFlow.tsx:77-81 | Five presses of Continue reach step 6 from step 1 with any form contents, even an empty one. |
| OnboardingFlow.StrengthTwiceRestores | src/pages/OnboardingFlow.tsx:89-96 | Toggling an absent strength twice restores the form exactly. |
| OnboardingFlow.ChallengeTwiceRestores | src/pages/OnboardingFlow.tsx:98-105 | Toggling an absent challenge twice restores the form exactly. |
| PriceParsing.DigitValue | src/pages/PaymentPage.tsx:62-63 | A hexadecimal digit has a value below 16, and a decimal digit below 10. |
| PriceParsing.IndexOf | src/pages/PaymentPage.tsx:62-63 | The search result is -1 iff the character is absent, and otherwise it is the position of its first occurrence. |
| PriceParsing.RemoveFirst | src/pages/PaymentPage.tsx:62-63 | Replacing a one-character pattern with '' leaves a string without it unchanged and otherwise removes exactly one character. |
| PriceParsing.TrimStart | src/pages/PaymentPage.tsx:62-63 | parseInt's leading-whitespace skip returns a suffix, drops only white space and stops at a non-white-space character. |
| PriceParsing.DigitPrefix | src/pages/PaymentPage.tsx:62-63 | parseInt reads the longest prefix of digits in the radix. |
| PriceParsing.DigitChar | src/pages/PaymentPage.tsx:62-63 | The reference digit character has the value it renders. |
| PriceParsing.Decimal | src/pages/PaymentPage.tsx:62-63 | The reference decimal rendering is a non-empty digit string with no leading zero. |
| PriceParsing.ValueOfDecimal | src/pages/PaymentPage.tsx:62-63 | Reading back the decimal rendering of n gives n. |
| PriceParsing.RemoveFirstSplits | src/pages/PaymentPage.tsx:62-63 | Removing the first c from a + [c] + b, where a has no c, gives a + b. |
| PriceParsing.DigitIsNotSign | src/pages/PaymentPage.tsx:62-63 | A decimal digit is neither white space nor a sign. |
| PriceParsing.DigitPrefixStops | src/pages/PaymentPage.tsx:62-63 | The digit prefix of digits followed by a non-digit is exactly those digits. |
| PriceParsing.ParseDigitsThenStop | src/pages/PaymentPage.tsx:62-63 | parseInt of digits followed by a non-digit that does not make a hex prefix is the value of the digits. |
| PriceParsing.ParseInt | src/pages/PaymentPage.tsx:62-63 | parseInt gives NaN for white space only, and for a first non-white character that is neither a digit nor a sign; a result is non-positive after '-' and non-negative otherwise. ParseDecimal and ParseDigitsThenStop pin the values it reads. |
| PriceParsing.ParseFee | src/pages/PaymentPage.tsx:62-63 | A fee with no rupee sign and no comma parses as plain parseInt, and the empty fee is NaN. ParseFeeOneComma and ParseFeeTwoCommas pin the values of separated fees. |
| PriceParsing.ParseDecimal | src/pages/PaymentPage.tsx:62-63 | parseInt inverts decimal rendering: it reads back every natural number. |
| PriceParsing.AllDigitsConcat | src/pages/PaymentPage.tsx:62-63 | Two digit strings concatenate to a digit string. |
| PriceParsing.DigitsHaveNoSeparators | src/pages/PaymentPage.tsx:62-63 | A digit string contains neither a comma nor the rupee sign. |
| PriceParsing.StripFee | src/pages/PaymentPage.tsx:62-63 | The two replace calls turn "₹" + a + "," + t into a + t when a is a digit string. |
| PriceParsing.ParseFeeDigits | src/pages/PaymentPage.tsx:62-63 | A fee of the shape "₹a,b" followed by a non-digit reads as the number with digits a then b. |
| PriceParsing.ParseFeeOneComma | src/pages/PaymentPage.tsx:62-63 | A fee with one thousands separator, "₹a,b", reads as the number with digits ab. |
| PriceParsing.ParseFeeTwoCommas | src/pages/PaymentPage.tsx:62-63 | With two separators, "₹a,b,c" reads only as ab: the second comma stops parseInt. |
| PriceParsing.ExampleMonthlyFee | src/pages/PaymentPage.tsx:62 | "₹2,999" parses to 2999. |
| PriceParsing.ExampleAnnualFee | src/pages/PaymentPage.tsx:63 | "₹29,990" parses to 29990. |
| PriceParsing.ExampleLakhFee | src/pages/PaymentPage.tsx:62-63 | Under the Indian digit grouping, "₹1,00,000" parses to 100, not 100000. |
| PaymentPage.GetAmount | src/pages/PaymentPage.tsx:56-58 | The amount is the annual fee for yearly billing and the monthly fee for monthly billing. |
| PaymentPage.CalculateSavings | src/pages/PaymentPage.tsx:60-67 | Monthly billing saves 0; yearly savings exist iff both fees parse, and they are 12 times the parsed monthly fee minus the parsed annual fee. |
| PaymentPage.SavingsNoticeRule | src/pages/PaymentPage.tsx:126 | The savings notice never shows for monthly billing, and for yearly billing it shows iff both fees parse and the savings are positive. |
| PaymentPage.ExampleSavings | src/pages/PaymentPage.tsx:60-67 | With fees "₹2,999" and "₹29,990", yearly billing saves 5998 and shows the notice. |
| PaymentPage.MethodId | src/pages/PaymentPage.tsx:35-54 | Every payment method has a non-empty id. |
| PaymentPage.MethodIdInjective | src/pages/PaymentPage.tsx:35-54 | Distinct payment methods have distinct ids. |
| PaymentPage.Initial | src/pages/PaymentPage.tsx:32-33 | The page starts with no method selected, not processing, and no timer pending. |
| PaymentPage.SelectMethod | src/pages/PaymentPage.tsx:207-212 | After clicking a method, exactly that method is highlighted, and processing is untouched. |
| PaymentPage.HandlePayment | src/pages/PaymentPage.tsx:69-79 | The handler changes nothing iff no method is selected; otherwise it starts processing and schedules one timer. |
| PaymentPage.TimerFires | src/pages/PaymentPage.tsx:75-78 | The timer always reports success, stops processing and keeps the chosen method. |
| PaymentPage.PayEnabled | src/pages/PaymentPage.tsx:248 | Pay is enabled with a method chosen and nothing processing; the Apply contract proves that pressing Pay changes the page exactly when it is enabled. |
| PaymentPage.ShowsSavings | src/pages/PaymentPage.tsx:126 | The notice condition; SavingsNoticeRule proves when it holds. |
| PaymentPage.Apply | src/pages/PaymentPage.tsx:69-79 | Success is reported iff a pending timer fires; pressing Pay changes the page iff it is enabled, and never while processing; when enabled it is exactly the payment handler; choosing a method is exactly the selection handler, which highlights it without touching processing; a timer event is the timer callback when one is pending and otherwise changes nothing. |
| PaymentPage.Run | src/pages/PaymentPage.tsx:69-79 | A run yields exactly one signal per event. |
| PaymentPage.ApplyKeepsGood | src/pages/PaymentPage.tsx:69-79 | Each event keeps the page Idle, or Processing with a method chosen and exactly one timer pending; a success signal ends a Processing phase. |
| PaymentPage.RunKeepsGood | src/pages/PaymentPage.tsx:69-79 | The phase invariant holds after any event sequence. |
| PaymentPage.InitialIsGood | src/pages/PaymentPage.tsx:32-33 | The initial page is Idle. |
| PaymentPage.PayThenTimer | src/pages/PaymentPage.tsx:69-79 | With a method chosen, Pay then the timer goes Idle → Processing → Idle and reports success exactly once. |
| PaymentPage.PayWhileProcessing | src/pages/PaymentPage.tsx:248 | While processing, the disabled Pay button changes nothing and reports nothing. |
| PaymentPage.PayWithoutMethod | src/pages/PaymentPage.tsx:70 | With no method selected, the handler and a press of Pay change nothing. |
| HashRouter.RouteKey | src/App.tsx:44 | The route key is never empty; it is the fragment without its '#' when that leaves something, and "home" otherwise. |
| HashRouter.RenderPage | src/App.tsx:56-89 | A known key dispatches to the page carrying that key; any other key renders the home page. |
| HashRouter.DispatchRoundTrip | src/App.tsx:57-85 | Each of the 14 pages is reached by its own key, so no two pages share a key. |
| HashRouter.ShowsFooter | src/App.tsx:99 | The footer condition; FooterIffNotOnboarding proves it holds exactly off the onboarding page. |
| HashRouter.FooterIffNotOnboarding | src/App.tsx:99 | The footer is drawn iff the rendered page is not the onboarding flow, including for unknown keys. |
| HashRouter.CaseSensitive | src/App.tsx:56-88 | Matching is case-sensitive: "Join" renders home and shows the footer. |
| HashRouter.HashRoundTrip | src/App.tsx:44 | Writing "#" + key to the fragment yields route key key. |
| HashRouter.Initial | src/App.tsx:39 | Before the first hash read the page is "home", and it renders the home page. |
| HashRouter.HandleHashChange | src/App.tsx:43-47 | The handler stores the route key; an unknown raw key is stored as is and renders home. |
| HashRouter.Mount | src/App.tsx:50 | The mount effect stores the route key of the current fragment; with no fragment the shell stays on "home". |
| HashRouter.RunShowsLatest | src/App.tsx:43-50 | After any sequence of hash changes the page is the route key of the latest fragment. |
| HashRouter.SessionShowsLatest | src/App.tsx:41-53 | Mounting reads the fragment once before any change, and afterwards the latest fragment decides the page. |
| MentorsPage.FilterByCategory | src/pages/MentorsPage.tsx:50 | The filter returns only mentors of the category, and it returns every such mentor as many times as it occurs. |
| MentorsPage.FilteredMentors | src/pages/MentorsPage.tsx:48-50 | "All" returns the list unchanged; any other category returns every mentor of that category as often as it occurs in the list and no other mentor, never more mentors than the input. |
| MentorsPage.InitialShowsAll | src/pages/MentorsPage.tsx:46-49 | The initial selection shows the whole mentor list. |
| MentorsPage.FilterAppend | src/pages/MentorsPage.tsx:50 | Filtering distributes over concatenation, so the original order is kept. |
| MentorsPage.FilterAllMatch | src/pages/MentorsPage.tsx:50 | A list whose mentors all match comes back unchanged. |
| MentorsPage.FilterIdempotent | src/pages/MentorsPage.tsx:50 | Filtering twice by the same category equals filtering once. |
| MentorsPage.NoMatchIsEmpty | src/pages/MentorsPage.tsx:50 | A category no mentor has yields the empty list. |
| MentorsPage.MentorsShape | src/pages/MentorsPage.tsx:6-41 | The page lists three mentors: two in Technology, then one in Business. |
| MentorsPage.UnusedCategoriesEmpty | src/pages/MentorsPage.tsx:6-50 | Every category other than All, Technology and Business, such as Creative, Sports or Academic, shows no mentor. |
| MentorsPage.UsedCategories | src/pages/MentorsPage.tsx:6-50 | Technology shows the first two mentors and Business the third. |
| FaqAccordion.Initial | src/pages/FAQPage.tsx:33 | Initially no answer is shown. |
| FaqAccordion.Click | src/pages/FAQPage.tsx:53 | Clicking question i shows its answer iff it was hidden, and hides every other answer. |
| FaqAccordion.AtMostOneShown | src/pages/FAQPage.tsx:66 | At most one answer is shown at a time. |
| FaqAccordion.ClickTwice | src/pages/FAQPage.tsx:53 | Clicking the same question twice restores the accordion iff no other question was open. |
| FaqAccordion.RunInRange | src/pages/FAQPage.tsx:44-66 | Clicks on the six questions keep the open index among them, and the open question is always the last one clicked or none. |
| TestimonialCarousel.Tick | src/components/TestimonialsSection.tsx:35 | A tick stays in range, moves forward by one before the last index, and wraps from the last index to 0. |
| TestimonialCarousel.TicksCompose | src/components/TestimonialsSection.tsx:34-35 | a ticks then b ticks equal a + b ticks. |
| TestimonialCarousel.TicksForward | src/components/TestimonialsSection.tsx:35 | Before the end of the list, k ticks move forward by exactly k. |
| TestimonialCarousel.WrapToFirst | src/components/TestimonialsSection.tsx:35 | From any index, the ticks up to the end of the list land on the first testimonial. |
| TestimonialCarousel.FullCycle | src/components/TestimonialsSection.tsx:35 | As many ticks as there are testimonials return to the starting index. |
| TestimonialCarousel.Periodic | src/components/TestimonialsSection.tsx:35 | The index sequence repeats with period equal to the number of testimonials. |
| TestimonialCarousel.SelectDot | src/components/TestimonialsSection.tsx:121 | Clicking dot i shows testimonial i. |
| TestimonialCarousel.ExactlyOneDot | src/components/TestimonialsSection.tsx:123 | With the index in range, exactly one dot is highlighted: the current one. |
| TestimonialCarousel.RunInRange | src/components/TestimonialsSection.tsx:31-35 | Ticks and clicks on rendered dots never take the index out of range. |
| TestimonialCarousel.PageCarousel | src/components/TestimonialsSection.tsx:31-35 | On the page's three testimonials the index starts at 0, stays below 3, and wraps from 2 to 0. |
| GlassNavbar.Initial | src/components/GlassNavbar.tsx:12-15 | The bar starts not scrolled, menu closed, last offset 0, and shown. |
| GlassNavbar.HandleScroll | src/components/GlassNavbar.tsx:22-36 | Scrolled iff the offset exceeds 20; hidden iff the offset exceeds both the last offset and 100; the offset is remembered; the menu is untouched. |
| GlassNavbar.ShownWhenNearTopOrUp | src/components/GlassNavbar.tsx:27-33 | Any offset of at most 100, or any move that is not downward, leaves the bar shown. |
| GlassNavbar.SameOffsetShows | src/components/GlassNavbar.tsx:27-35 | A second event at the same offset always shows the bar and keeps the scrolled look. |
| GlassNavbar.ToggleMenu | src/components/GlassNavbar.tsx:198 | The menu button flips mobileOpen and nothing else. |
| GlassNavbar.ToggleTwice | src/components/GlassNavbar.tsx:198 | Two presses of the menu button restore the bar. |
| GlassNavbar.CloseMenu | src/components/GlassNavbar.tsx:240 | Closing sets mobileOpen to false and changes nothing else. |
| GlassNavbar.Apply | src/components/GlassNavbar.tsx:99-285 | Mobile links and the mobile Get Started write their fragment and close the menu; desktop links, the logo and the desktop Get Started write theirs and leave the bar as it was; the backdrop closes the menu, the menu button toggles it and a scroll event applies the scroll handler, none of them writing a fragment; an entry not on screen does nothing. |
| GlassNavbar.ApplyKeepsGood | src/components/GlassNavbar.tsx:22-36 | A hidden bar is always scrolled, with a last offset above 100, after any event. |
| GlassNavbar.RunKeepsGood | src/components/GlassNavbar.tsx:22-285 | Along any run the invariant holds, every fragment written is one of the bar's targets, and the remembered offset is that of the latest scroll event. |
| GlassNavbar.LastOffsetCons | src/components/GlassNavbar.tsx:35 | Taking one event off the front does not change which scroll event was latest. |
| GlassNavbar.RoutesTo | src/App.tsx:44-87 | A fragment "#" + key of a page is routed by the shell to that page. |
| GlassNavbar.LinkReachesItsPage | src/components/GlassNavbar.tsx:42-48 | Each section link is routed to its own section page. |
| GlassNavbar.ButtonsReachTheirPages | src/components/GlassNavbar.tsx:99-167 | The logo leads home, and both Get Started buttons lead to the onboarding flow, which has no footer. |
| GlassNavbar.LinksReachTheirPages | src/components/GlassNavbar.tsx:42-48 | All five section links are routed to Features, Programs, Mentors, Pricing and About, in order. |

## Left out

- Floating point: the GST and total lines of the payment page, the pay-button label, the onboarding progress bar and every `useTransform`/`useSpring` value. None of them feeds back into state.
- Timers: `setTimeout` in the payment page and `setInterval` in the carousel are not modelled as clocks. Their callbacks are explicit events (`TimerElapsed`, `IntervalTick`). The carousel interval's clean-up on unmount is not modelled.
- Browser globals: writes to `window.location.hash` are outputs (`GlassNavbar.Outcome.hashWritten`) and inputs (`HashRouter.Run`). `window.scrollTo`, listener registration and clean-up, `alert` and `preventDefault` are not modelled.
- PriceParsing.ParseInt: JavaScript numbers are IEEE doubles. Above 2^53 `parseInt` rounds, and the model returns the exact integer instead. `NaN` is `None`, and the savings contract is stated for the case where both fees parse. For parses that succeed, ParseInt only models what shows on the fee strings: white space, sign, the `0x` prefix and the longest digit run.
- PriceParsing.ExampleLakhFee: "₹1,00,000" reading as 100 is the code's behaviour as written. It is kept as written because no fee string with two separators occurs anywhere in the application: no route of `src/App.tsx` renders the payment page, so no plan reaches it.
- GlassNavbar.HandleScroll: the scroll offset is an integer, but a browser can report fractional offsets. The listener is re-registered whenever `lastScrollY` changes; the model assumes each event sees the latest offset and ignores the stale-closure window between a state update and re-registration.
- Onboarding: `src/pages/OnboardingFlow.tsx` has no mobile-number normalisation, no per-step validation and no submit/schedule sub-flow. The model follows the code, where Continue advances unconditionally. The step-6 buttons that navigate away (`#mentors`) are not modelled.
- PaymentPage: the billing cycle, the plan and the enrollment data are props. The model takes them as parameters and does not model who supplies them. No caller in the application renders this page, and the pricing page's billing toggle is never handed to it.
- PaymentPage: the "Back to Enrollment Form" button (`src/pages/PaymentPage.tsx:266-272`) only calls the page's `onBack` prop and changes no state of the page. It is not an event of `PaymentPage.Event`, because no caller in the application supplies that prop.
- PricingPage: its monthly/yearly toggle is never read by another component, and its buttons only write a hash. It is not part of this model.
- ContactPage: it only shows an `alert` and clears four fields. Required fields are enforced by the browser's `required` attribute. It is not part of this model.
- The `layers` diagrams and the static pages (home sections, Programs, Features, About, Careers, Blog, Terms, Privacy, Help Center, Success) hold no state logic. They are not part of this model.
- MentorsPage: mentor ratings are decimals in the source. The model keeps them as tenths (`ratingTenths`) because no behaviour reads them.
- Animation, styling, layout and copy.
