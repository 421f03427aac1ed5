# Tourism front end: client-side booking, package-editor and navigation logic

This project models the logic that the travel-booking web front end runs in the browser, and proves properties of it in Dafny:

- **The booking wizard** (`BookingModal`). Step 1 checks the departure date and the traveller count against the package's free seats. Step 2 checks the contact name, the email pattern and a phone rule. The wizard advances from step 1 to step 2 only when step 1 passes, Back returns to step 1, and the submitted phone is reduced to its digits. Editing a field blanks that field's error.
- **The admin package editor** (`PackageForm`). It sets the default initial state, edits the itinerary and the includes/excludes/highlights lists, and drops blank rows on submit.
- **The package search** (`PackageSearch`). It keeps packages whose title or destination contains the query, ignoring case.
- **The package card** (`PackageCard`). It shows a low-seats or sold-out badge, falls back to a default image, and shows the featured ribbon.
- **The "My Bookings" page** (`BookingsPage`). It maps status to a badge with a fallback, capitalises the status label, and offers Cancel only for pending bookings.
- **Role-based navigation** (`DashboardLayout`) and **the landing-page redirect** (`HomePage`).

Shared helpers:

- `Seqs`: `filter` and order-preserving subsequences.
- `Strings`: the JavaScript string operations the pages use (`trim`, `\s`, `\d`, ASCII case mapping, `includes`, digit stripping).
- `Types`: the user and package records.
- `Options`: an optional value.

Dates are whole day numbers. Roles and statuses are strings, as in the source: the declared role union (`src/types/index.ts:7`) has no `'tour_guide'`, yet both the sidebar and the landing page compare against it.

The booking wizard's component state (`step`, `formData`, `errors`) is the class `BookingModal.Wizard`. Its methods replace that state as the React setters do. The validation functions fill an error map entry by entry, so they are imperative methods (`Step1Errors`, `Step2Errors`). The resulting map is pinned down by the predicates `Step1Report` and `Step2Report`. Everything else is pure, as in the source, and is written as functions over values.

The code and the wider design description of the system disagree in two places. The model follows the code:

- The design description puts the request workflow, guide assignment, seat reservation and booking cancellation in the core. None of that runs in this code base; the front end only calls server endpoints for them.
- The design description requires a departure strictly in the future. The wizard only rejects dates before today's local midnight. It parses the chosen date as midnight UTC, so in time zones at or east of UTC it accepts a departure on the current day (`TodayIsAccepted`). West of UTC, the current day falls before local midnight and is rejected.

## Model

| member | source | states |
|---|---|---|
| BookingModal.Step1Errors | src/components/bookings/BookingModal.tsx:38-61 | The step-1 error map has a date entry iff the date is empty or before today, and a traveller entry iff the count is not within 1..seats. When the count exceeds the seats, the traveller message is the seats message, because it is written last. The map is empty iff step 1 passes. |
| BookingModal.Step1ReportUnique | src/components/bookings/BookingModal.tsx:39-59 | The step-1 report determines the error map completely: its keys and every message. |
| BookingModal.TodayIsAccepted | src/components/bookings/BookingModal.tsx:44-48 | A departure on the current day is accepted; the day before is rejected. This is the behaviour at or east of UTC (see "## Left out"). |
| BookingModal.Step2Errors | src/components/bookings/BookingModal.tsx:64-80 | The step-2 map has a name, email or phone entry, with its message, exactly when that check fails. The map is empty iff all three pass. |
| BookingModal.NameGivenIff | src/components/bookings/BookingModal.tsx:67-69 | The name check passes iff the name holds a non-whitespace character. |
| BookingModal.EmailShape | src/components/bookings/BookingModal.tsx:71-73 | An accepted email has no whitespace, contains '@' and '.', and is at least 5 characters long. |
| BookingModal.EmailAcceptsParts | src/components/bookings/BookingModal.tsx:71-73 | Every local@domain.tld with non-empty, whitespace-free parts is accepted. |
| BookingModal.PhoneAcceptedIff | src/components/bookings/BookingModal.tsx:75-77 | The phone check passes iff the phone has 9 to 15 digits once non-digits are removed. |
| BookingModal.PhoneIgnoresSeparators | src/components/bookings/BookingModal.tsx:75 | Inserting any run of non-digit characters into a phone never changes whether it is accepted. |
| BookingModal.Payload | src/components/bookings/BookingModal.tsx:94-98 | The booking data copies every form field and adds the package id. Its phone is the typed phone with every non-digit removed: all digits, in their typed order, each digit as often as it was typed. |
| BookingModal.SubmittedPhoneLength | src/components/bookings/BookingModal.tsx:89-97 | A phone that passed step 2 is submitted as 9 to 15 digits. |
| BookingModal.ClearError | src/components/bookings/BookingModal.tsx:30-36 | Editing a field blanks that field's error message. The key stays, every other error is unchanged, and no key is added or removed. |
| BookingModal.EditTouchesOneField | src/components/bookings/BookingModal.tsx:31-32 | A change event alters only the form field it names. |
| BookingModal.Wizard.constructor | src/components/bookings/BookingModal.tsx:18-27 | The wizard starts at step 1, with an empty date, one traveller, empty contact fields and no errors. |
| BookingModal.Wizard.HandleChange | src/components/bookings/BookingModal.tsx:30-36 | The form gets the edit, the edited field's error is blanked, and the step is unchanged. |
| BookingModal.Wizard.ValidateStep1 | src/components/bookings/BookingModal.tsx:38-62 | The errors become the step-1 report. The result is true iff step 1 passes, iff no error is recorded. |
| BookingModal.Wizard.ValidateStep2 | src/components/bookings/BookingModal.tsx:64-81 | The errors become the step-2 report. The result is true iff step 2 passes, iff no error is recorded. |
| BookingModal.Wizard.HandleNext | src/components/bookings/BookingModal.tsx:83-87 | From step 1 the wizard validates, moves to step 2 iff validation passes, and otherwise stays at step 1. On any other step it changes nothing. The step is always 1 or 2. |
| BookingModal.Wizard.Back | src/components/bookings/BookingModal.tsx:300-306 | Back always sets step 1 and changes nothing else. |
| BookingModal.Wizard.HandleSubmit | src/components/bookings/BookingModal.tsx:89-98 | Booking data is produced iff step-2 validation passes. It is the form with the package id added and the phone reduced to digits. |
| PackageForm.InitialState | src/components/admin/PackageForm.tsx:21-38 | Without initial data, every text field is empty, `featured` is false, `active` true, the itinerary [] and the other lists [""]. With initial data, title, destination, description, image URL and departure days are the supplied text or empty, lists it omits start as [""] (the itinerary as []), `active` is true unless supplied, and `featured` false unless supplied. |
| PackageForm.AddItineraryDay | src/components/admin/PackageForm.tsx:68-70 | Appends one entry with day = old length + 1 and empty title and description; earlier entries are unchanged. |
| PackageForm.UpdateItinerary | src/components/admin/PackageForm.tsx:72-76 | Changes only the named field of the entry at the index. The length, that entry's other fields and every other entry are unchanged. |
| PackageForm.RemoveAt | src/components/admin/PackageForm.tsx:79 | Drops exactly the element at an in-range index (length minus 1, the rest in order). An out-of-range index changes nothing. |
| PackageForm.RemoveAtContents | src/components/admin/PackageForm.tsx:79 | Removing at an in-range index takes exactly one occurrence of that element out of the list's contents. |
| PackageForm.RemoveItinerary | src/components/admin/PackageForm.tsx:78-80 | An in-range index removes that one entry, shortening the itinerary by one and leaving the other entries' contents. An out-of-range index changes nothing. |
| PackageForm.RemoveArrayItem | src/components/admin/PackageForm.tsx:92-94 | An in-range index removes that one item, shortening the list by one and leaving the other items. An out-of-range index changes nothing. |
| PackageForm.RemoveKeepsDayNumbers | src/components/admin/PackageForm.tsx:78-80 | Removing an itinerary entry does not renumber the survivors. Removing any entry but the last from a 1..n list leaves a gap. |
| PackageForm.AddKeepsNumbering | src/components/admin/PackageForm.tsx:68-70 | Appending a day to a list numbered 1..n gives a list numbered 1..n+1. |
| PackageForm.AddThenRemoveRestores | src/components/admin/PackageForm.tsx:68-80 | Adding a row and then removing it gives back the original list, for the itinerary and for string lists. |
| PackageForm.AddArrayItem | src/components/admin/PackageForm.tsx:82-84 | Appends exactly one empty string and keeps the earlier items. |
| PackageForm.UpdateArrayItem | src/components/admin/PackageForm.tsx:86-90 | Replaces only the element at the index; the length is unchanged. |
| PackageForm.SubmitData | src/components/admin/PackageForm.tsx:50-63 | The submitted itinerary and lists are the cleaned edited lists: order-preserving subsequences in which every itinerary day has a title and a description and every item is non-blank. The text fields (departure days included) and the flags are passed unchanged. |
| PackageForm.CleanListKeepsFilled | src/components/admin/PackageForm.tsx:60-62 | Cleaning keeps every non-blank item exactly as often as it occurs and drops every blank one. |
| PackageForm.CleanItineraryKeepsComplete | src/components/admin/PackageForm.tsx:59 | Every day with a non-empty title and description survives submit exactly as often as it occurs, and every other day is dropped. |
| PackageForm.FilledMeansVisible | src/components/admin/PackageForm.tsx:60-62 | An item is kept iff it contains a non-whitespace character. |
| PackageForm.CleaningIdempotent | src/components/admin/PackageForm.tsx:59-62 | Cleaning an already cleaned list changes nothing. |
| PackageForm.FreshFormSubmitsEmptyLists | src/components/admin/PackageForm.tsx:35-38 | Submitting an untouched new form sends empty lists (the blank starter rows are dropped) and active = true. |
| PackageSearch.FilterPackages | src/app/packages/page.tsx:36-39 | The shown list is an order-preserving subsequence of the packages. It holds exactly the packages whose lower-cased title or destination contains the lower-cased query, each as often as it occurs in the input. |
| PackageSearch.EmptyQueryShowsAll | src/app/packages/page.tsx:36-39 | The empty query shows every package. |
| PackageSearch.CaseInsensitive | src/app/packages/page.tsx:37-38 | Queries that differ only in ASCII letter case show the same list. |
| PackageSearch.NarrowerQueryMatchesLess | src/app/packages/page.tsx:37-38 | If q is a substring of q', every package matching q' also matches q. |
| PackageSearch.NarrowerQueryShowsSubsequence | src/app/packages/page.tsx:36-39 | Lengthening the query to one that contains it shows a subsequence of the previous list. |
| PackageCard.SeatBadges | src/components/packages/PackageCard.tsx:48-57 | "Only N seats left!" shows iff 1 <= seats <= 3, and "Sold Out" shows iff seats = 0. At most one of them shows, and none shows above 3 or below 0. |
| PackageCard.BadgesExclusive | src/components/packages/PackageCard.tsx:48-57 | The two availability badges never show together. |
| PackageCard.ImageSource | src/components/packages/PackageCard.tsx:30-38 | The image is image_url when it is given and non-empty, otherwise the fixed default URL; it is never empty. |
| PackageCard.Card | src/components/packages/PackageCard.tsx:33-57 | The card links to /packages/<slug>, shows the featured ribbon iff `featured`, and uses the image and badges above, each badge with its text. |
| PackageCard.BadgeTexts | src/components/packages/PackageCard.tsx:48-57 | A low-seats badge reads "Only N seats left!" with N as one digit, and the sold-out badge reads "Sold Out". |
| BookingsPage.StatusBadge | src/app/bookings/page.tsx:58-65 | Each of the four statuses gets its own table entry. The pending badge is shown exactly for "pending" and for every unknown status. |
| BookingsPage.KnownBadgesDistinct | src/app/bookings/page.tsx:59-64 | The four known statuses get pairwise different badges. |
| BookingsPage.StatusLabel | src/app/bookings/page.tsx:70 | The label has the status's length: its first character upper-cased, the rest unchanged. |
| BookingsPage.LabelLowersBack | src/app/bookings/page.tsx:70 | For a status starting with a lower-case letter, lower-casing the label's first character gives the status back. |
| BookingsPage.CancelImpliesPendingBadge | src/app/bookings/page.tsx:188-196 | Cancel is offered only for "pending" (never for confirmed, cancelled or completed). A cancellable booking shows the pending badge, and an unknown status shows that badge without a cancel button. |
| DashboardLayout.Navigation | src/components/dashboard/DashboardLayout.tsx:42-66 | tour_guide gets [Dashboard -> /tour-guide/dashboard, Assigned Requests]. admin gets the five admin entries in order. Anyone else, or no user, gets [Dashboard, Packages, My Requests], never /bookings. Every list starts with "Dashboard" and has unique names. |
| DashboardLayout.AgentGetsUserNavigation | src/components/dashboard/DashboardLayout.tsx:58-65 | The declared role 'agent' gets the same entries as a signed-out visitor or a regular user. |
| DashboardLayout.DashboardEntryMatchesRedirect | src/components/dashboard/DashboardLayout.tsx:42-66 | For every signed-in user, the sidebar's first entry links to the dashboard the landing page redirects that user to. |
| HomePage.Redirect | src/app/page.tsx:13-24 | No redirect while loading or when signed out. Otherwise exactly one route: admin to /admin/dashboard, tour_guide to /tour-guide/dashboard, and every other role to /dashboard. |
| HomePage.OldGuideSpellingIsOrdinary | src/app/page.tsx:18-21 | The old spelling 'tour guide' is redirected to /dashboard, not to the guide dashboard. |

## Left out

- Server-side behaviour: request status transitions, guide assignment and reassignment, workload counts, seat reservation and release, and booking cancellation and status updates. The front end only issues HTTP calls for them (`src/lib/api.ts`), so their rules are not visible here.
- The request-status union (`src/types/index.ts:19`) is not used by any modelled operation and is not declared.
- The HTTP client, the authentication context, the button and stats-card class strings, JSX rendering, routing side effects (`router.push`), `alert`/`confirm` dialogs, the loading flag `isSubmitting`, and the asynchronous fetch, cancel and submit network paths. The model of `handleSubmit` stops at the booking data it would send.
- Prices and number parsing: `pkg.price * num_travelers`, and `parseFloat`/`parseInt` of the package form's numeric fields, are floating point. Those fields, and the rule that a numeric `0` in the initial data becomes `''`, are not in `PackageState`.
- JavaScript's string-to-number coercion of the traveller input. The count is an integer throughout.
- Time zones: dates are whole day numbers compared with today's local day number. The source compares the chosen date at midnight UTC with today's local midnight. The model agrees with it at or east of UTC. West of UTC the source also rejects the current day, which the model accepts.
- Unicode case mapping: `toLowerCase`/`toUpperCase` are modelled on ASCII letters only. The regular expressions are written out as explicit predicates.
- A `null` (rather than missing) `active` in the package editor's initial data is not modelled; a field is either supplied or missing.
- Status strings that name inherited properties of a JavaScript object (such as `toString`) are not modelled: the badge table is a plain map.
- The package editor's generic `handleChange` for its scalar fields is not modelled; only the list editors and submit cleaning are.
- React's asynchronous state batching and stale closures: each handler is modelled as seeing the state left by the previous one.
- PackageForm.UpdateItinerary: requires an in-range index and a field among title and description. In JavaScript, an index equal to the length appends a partial entry holding only the written field. An index past the end leaves holes, which a sequence cannot represent. A negative index writes a property outside the array's elements and leaves the list unchanged. A field named `day` would overwrite the day number. None of these arise: the rendered form has no itinerary editor. None of `addItineraryDay`, `updateItinerary` or `removeItinerary` has a call site.
- PackageForm.UpdateArrayItem: requires an in-range index. Every call site passes the index of a rendered row.
