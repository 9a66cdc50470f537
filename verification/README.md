# Eventify front end: wizard, password reset and events list, modelled in Dafny

This project models the three parts of the Eventify single-page application
that hold logic of their own. The rest of the application is markup and HTTP
calls.

- **Event-creation wizard** (`Draft`, `Wizard`). The five-step cursor moves
  with Next, Back and the review step's jump-back controls. The draft
  (`EventData`) is edited by a shallow-merge update, the event-type toggle,
  index-addressed ticket-tier edits and the single-day/multi-day end-date
  synchronisation. The ticket total is also the submitted capacity. The
  entry guard admits a stored session token. The submit reads the start
  and end times as `split(':')` and `parseInt` do, then builds the
  create-event request. The component is the class
  `EventCreationWizard`, with fields `currentStep`, `draft` and `token` and
  one method per handler.
- **Forgot-password page** (`ForgotPassword`). A three-step flow: request a
  code, verify it to obtain a reset token, then set a new password under that
  token. Each handler's server response is an input. The request it sends and
  the toast it shows are outputs. The pure `Transition`/`Run` functions give
  the step machine, and the class `ForgotPasswordPage` is proved against them.
- **Events list** (`EventsList`). The colour lookup for type pills with its
  grey default. Previous/Next paging, clamped at page 0. The fetches the
  paging triggers. The single expanded card. The class `EventsPage` holds
  `events`, `page`, `loading` and `expandedEvent`.

The `Authorization` header that all three send is defined once, in
`Session`.

Things the browser or the server provides become parameters. These are the
stored token, the clock (`nowMs`), the token decoder (`decode`), each
server response, and the files chosen in the poster input.

Every asynchronous handler is modelled as one atomic step. It sets
`loading`, sends its request, settles with the given response and clears
`loading` in one method.

### Behaviour worth noting

- The selected event types are an ordered list. Toggling an absent id
  appends it. Toggling a present id removes every occurrence.
  `ToggleKeepsDistinct` proves that a list built only by toggling never
  holds an id twice.
- Ticket counts may be negative. The count input keeps any integer
  `parseInt` yields, so the total is a plain sum that may be zero or
  negative while tiers are non-empty, and the zero-tickets warning then
  shows (`NegativeCountsCancel`).
- A failed forgot-password reply is rethrown as `new Error(data.message)`.
  When the reply has no `message` field, the toast is the empty string. A
  `null` message shows the text `null`. The handler's fallback text is used
  only when something that is not an `Error` is thrown
  (`MissingMessageIsEmpty`, `FallbackOnlyForNonErrors`).
- The entry guard tests `payload.exp * 1000 < Date.now()`. A payload whose
  `exp` is absent, or coerces to `NaN` or `+Infinity`, is never expired. A
  `null` claim coerces to 0 and so counts as expired. `true` and numeric
  strings coerce to their numbers and can expire. `exp` may carry a
  fraction of a second, so it is a real number (`FractionalExpiry`). An empty stored token is treated as
  missing.
- The submit builds both timestamps before its `try`. A start or end time
  that does not parse gives an invalid date. `toISOString` then throws, and
  no request is sent. The initial draft's empty times are such times
  (`UnsetTimeDoesNotParse`).
- For multi-day events, "end date not before start date" is enforced only
  by the date picker's `minDate`. The draft does not enforce it, and
  neither does the model.

## Model

| member | source | states |
|---|---|---|
| `Draft.MergeIsShallow` | src/components/ui/EventCreationWizard.tsx:104-106 | each of the ten fields keeps its value when the partial does not name it and takes the partial's value when it does |
| `Draft.MergeNoChange` | src/components/ui/EventCreationWizard.tsx:104-106 | merging the empty partial leaves the draft unchanged |
| `Draft.MergeThen` | src/components/ui/EventCreationWizard.tsx:360-374 | two updates in a row equal one update with the combined partial, in which the later one wins per field |
| `Draft.MergeTwice` | src/components/ui/EventCreationWizard.tsx:104-106 | merging the same partial a second time changes nothing more |
| `Draft.Without` | src/components/ui/EventCreationWizard.tsx:301 | the filtered list holds exactly the ids other than `id` and is no longer than the input |
| `Draft.Toggle` | src/components/ui/EventCreationWizard.tsx:298-305 | a present id is removed by the filter; an absent id is appended at the end after the unchanged old list; no other id's membership changes |
| `Draft.WithoutConcat` | src/components/ui/EventCreationWizard.tsx:301 | filtering distributes over concatenation, so the remaining ids keep their relative order |
| `Draft.WithoutAbsent` | src/components/ui/EventCreationWizard.tsx:301 | filtering out an id that does not occur returns the list unchanged |
| `Draft.ToggleTwiceRestores` | src/components/ui/EventCreationWizard.tsx:298-305 | toggling an unselected id twice restores the original list |
| `Draft.TogglePresentTwice` | src/components/ui/EventCreationWizard.tsx:298-305 | toggling a selected id twice moves it to the end and drops its duplicates |
| `Draft.WithoutKeepsDistinct` | src/components/ui/EventCreationWizard.tsx:301 | filtering a duplicate-free list keeps it duplicate-free |
| `Draft.ToggleKeepsDistinct` | src/components/ui/EventCreationWizard.tsx:298-305 | toggling keeps the selection free of duplicates |
| `Draft.TotalTickets` | src/components/ui/EventCreationWizard.tsx:464 | with non-negative counts the total is non-negative, and it is zero exactly when every tier has zero tickets |
| `Draft.TotalConcat` | src/components/ui/EventCreationWizard.tsx:464 | the total of two tier lists joined is the sum of their totals |
| `Draft.TotalSingle` | src/components/ui/EventCreationWizard.tsx:464 | a single tier's total is its count |
| `Draft.TotalExample` | src/components/ui/EventCreationWizard.tsx:144 | tiers of 10 and 100 tickets give capacity 110 |
| `Draft.ZeroTicketsWarningIff` | src/components/ui/EventCreationWizard.tsx:516-520 | with no negative count, step 3 warns exactly when every tier has zero tickets, an empty tier list included |
| `Draft.NegativeCountsCancel` | src/components/ui/EventCreationWizard.tsx:495-500 | a draft with tiers of 10 and -10 tickets shows the zero-tickets warning although one tier has tickets |
| `Draft.AddTicketKeepsTotal` | src/components/ui/EventCreationWizard.tsx:444-451 | appending the default tier adds exactly one tier, keeps the earlier ones and leaves the total unchanged |
| `Draft.UpdateTicketTotal` | src/components/ui/EventCreationWizard.tsx:453-457 | replacing tier i changes the total by the new count minus the old |
| `Draft.KeepOthersShape` | src/components/ui/EventCreationWizard.tsx:460 | the index filter equals cutting out position `index` when it is in range, and is the identity otherwise |
| `Draft.KeepOthers` | src/components/ui/EventCreationWizard.tsx:460 | the index filter drops exactly one tier when `index` is one of the positions it visits, and none otherwise |
| `Draft.RemoveTier` | src/components/ui/EventCreationWizard.tsx:459-462 | removing tier `index` shortens the list by one when the index is in range, and keeps its length otherwise |
| `Draft.RemoveTierShifts` | src/components/ui/EventCreationWizard.tsx:459-462 | removing tier i keeps the tiers before i, shifts later tiers down by one and shortens the list by one; an out-of-range index changes nothing |
| `Draft.RemoveTierTotal` | src/components/ui/EventCreationWizard.tsx:459-464 | removing tier i lowers the total by that tier's count |
| `Draft.EndDateBase` | src/components/ui/EventCreationWizard.tsx:130-134 | the end timestamp is built on the start date or the end date, and lacks a date only when the start date is missing |
| `Draft.EndDateBaseInSync` | src/components/ui/EventCreationWizard.tsx:130-134 | for a draft whose dates are in sync, the end timestamp is built on the end date when one is set, else on the start date |
| `Wizard.SectionStep` | src/components/ui/EventCreationWizard.tsx:581-620 | every jump-back control targets one of steps 1 to 4 |
| `Wizard.NextStep` | src/components/ui/EventCreationWizard.tsx:95-97 | from a step in 1..5, Next moves forward by at most one and never past step 5; it lands on step 5 exactly from step 4 or later |
| `Wizard.BackStep` | src/components/ui/EventCreationWizard.tsx:99-101 | from a step in 1..5, Back moves back by at most one and never before step 1; it lands on step 1 exactly from step 2 or earlier |
| `Wizard.OfferedButtons` | src/components/ui/EventCreationWizard.tsx:241-254 | on every step exactly one of Next and Submit is shown; Back is shown on every step except 1 |
| `Wizard.NextBackInverse` | src/components/ui/EventCreationWizard.tsx:94-101 | Next at step 5 and Back at step 1 are no-ops; elsewhere Next adds one, Back subtracts one, and each undoes the other |
| `Wizard.WalkStaysInRange` | src/components/ui/EventCreationWizard.tsx:62-101 | from a step in 1..5, any sequence of Next, Back and jump-back moves leaves the cursor in 1..5 |
| `Wizard.ReviewAfterFourNext` | src/components/ui/EventCreationWizard.tsx:94-97 | four Next presses from step 1 reach the review step, and a fifth stays there |
| `Wizard.EntryTokenAdmits` | src/components/ui/EventCreationWizard.tsx:69-91 | a token is admitted iff it is stored, non-empty, decodes and is not expired; the admitted token is the stored one |
| `Wizard.EntryToken` | src/components/ui/EventCreationWizard.tsx:69-91 | an admitted token is the stored value itself, non-empty and decodable |
| `Wizard.ExpiredTenSecondsAgo` | src/components/ui/EventCreationWizard.tsx:80-84 | a token whose `exp` lies ten seconds in the past is refused |
| `Wizard.FractionalExpiry` | src/components/ui/EventCreationWizard.tsx:80-84 | an `exp` of 1.5 seconds admits the token at 1200 ms and refuses it at 1600 ms, which no whole-second `exp` does |
| `Wizard.CreatorId` | src/components/ui/EventCreationWizard.tsx:109-116 | the creator id is `""` only when the token does not decode or its `userId` claim is `""`; it is missing only when the token decodes without a `userId` claim |
| `Wizard.AdmittedTokenNamesCreator` | src/components/ui/EventCreationWizard.tsx:109-116 | for an admitted token the creator id is its `userId` claim; the empty fallback comes only from a token that does not decode |
| `Wizard.JoinSplit` | src/components/ui/EventCreationWizard.tsx:127 | joining the pieces of `split(':')` with the separator gives back the text |
| `Wizard.SplitNoSeparator` | src/components/ui/EventCreationWizard.tsx:127-135 | text without a `:` splits into one piece, the text itself |
| `Wizard.SplitAtSeparator` | src/components/ui/EventCreationWizard.tsx:127-135 | the first `:` ends the first piece; the rest of the pieces are those of the text after it |
| `Wizard.TrimStart` | src/components/ui/EventCreationWizard.tsx:128 | the text `parseInt` reads from starts with a character that is not white space |
| `Wizard.TrimStartDropsOnlySpace` | src/components/ui/EventCreationWizard.tsx:128-136 | the text `parseInt` reads from is a suffix of its input, and everything dropped before it is white space |
| `Wizard.TrimStartSkips` | src/components/ui/EventCreationWizard.tsx:128-136 | any run of white space before a non-space character is skipped and nothing else |
| `Wizard.DigitPrefix` | src/components/ui/EventCreationWizard.tsx:128 | the digits `parseInt` reads are the longest run of decimal digits at the start of the text |
| `Wizard.DigitPrefixOf` | src/components/ui/EventCreationWizard.tsx:128-136 | a digit run followed by a non-digit or by the end is exactly the run `parseInt` reads |
| `Wizard.UnsignedOf` | src/components/ui/EventCreationWizard.tsx:128-136 | one leading `+` or `-` before a digit is dropped from the digits read, and only `-` makes the number negative |
| `Wizard.ParseIntReadsNumber` | src/components/ui/EventCreationWizard.tsx:128-136 | white space, an optional sign and a digit run followed by anything that is not a digit parse to the signed value of the run |
| `Wizard.ParseIntNoDigits` | src/components/ui/EventCreationWizard.tsx:128-136 | text without a decimal digit parses to `NaN` |
| `Wizard.ParseTwoDigits` | src/components/ui/EventCreationWizard.tsx:128 | two digits, with or without a leading zero, parse to the number they spell |
| `Wizard.ParseTimeOfParts` | src/components/ui/EventCreationWizard.tsx:126-136 | a time that splits into exactly an hour piece and a minute piece, both parsing, combines into that hour and minute |
| `Wizard.ParsePickerValue` | src/components/ui/EventCreationWizard.tsx:126-128 | every `HH:mm` value the time picker reports parses back to its hour and minute |
| `Wizard.UnsetTimeDoesNotParse` | src/components/ui/EventCreationWizard.tsx:47-48 | the empty time of the initial draft or a cleared picker, and an hour without minutes, do not parse |
| `Wizard.EventCreationWizard.constructor` | src/components/ui/EventCreationWizard.tsx:41-64 | the wizard starts at step 1 with the initial draft and no token |
| `Wizard.EventCreationWizard.Enter` | src/components/ui/EventCreationWizard.tsx:69-91 | a redirect to login happens exactly when the guard refuses, and then `token` is unchanged; otherwise `token` becomes the stored value |
| `Wizard.EventCreationWizard.HandleNext` | src/components/ui/EventCreationWizard.tsx:94-97 | the step becomes `min(step+1, 5)`; the draft and token are unchanged |
| `Wizard.EventCreationWizard.HandleBack` | src/components/ui/EventCreationWizard.tsx:99-101 | the step becomes `max(step-1, 1)`; the draft and token are unchanged |
| `Wizard.EventCreationWizard.NavigateToStep` | src/components/ui/EventCreationWizard.tsx:564-620 | on the review step, a section's control sets the step to that section's step; the draft is unchanged |
| `Wizard.EventCreationWizard.UpdateEventData` | src/components/ui/EventCreationWizard.tsx:104-106 | the draft becomes the shallow merge of the old draft and the partial |
| `Wizard.EventCreationWizard.ToggleEventType` | src/components/ui/EventCreationWizard.tsx:298-305 | only the type list changes, and it becomes its toggle; a duplicate-free selection stays duplicate-free |
| `Wizard.EventCreationWizard.HandleDateChange` | src/components/ui/EventCreationWizard.tsx:360-366 | the event date is set; a single-day event's end date is set to the same date, a multi-day one keeps its end date; the dates stay in sync |
| `Wizard.EventCreationWizard.HandleMultiDayToggle` | src/components/ui/EventCreationWizard.tsx:368-374 | the flag is set; turning it off collapses the end date onto the start date whatever it was |
| `Wizard.EventCreationWizard.SetEndDate` | src/components/ui/EventCreationWizard.tsx:417-426 | with the multi-day picker shown, only the end date changes |
| `Wizard.EventCreationWizard.SetStartTime` | src/components/ui/EventCreationWizard.tsx:393-396 | only the start time changes; a cleared picker stores the empty text |
| `Wizard.EventCreationWizard.SetEndTime` | src/components/ui/EventCreationWizard.tsx:400-403 | only the end time changes; a cleared picker stores the empty text |
| `Wizard.EventCreationWizard.SelectPoster` | src/components/ui/EventCreationWizard.tsx:537-541 | the first chosen file replaces the poster; an empty choice changes nothing |
| `Wizard.EventCreationWizard.AddTicket` | src/components/ui/EventCreationWizard.tsx:444-451 | the tiers gain the default tier at the end and the total is unchanged |
| `Wizard.EventCreationWizard.UpdateTicket` | src/components/ui/EventCreationWizard.tsx:453-457 | only tier `index` is replaced; the length is kept and the total moves by the difference of the counts |
| `Wizard.EventCreationWizard.RemoveTicket` | src/components/ui/EventCreationWizard.tsx:459-462 | the tiers become the list without position `index`, and the total drops by that tier's count |
| `Wizard.EventCreationWizard.HandleSubmit` | src/components/ui/EventCreationWizard.tsx:119-173 | a missing or empty token means redirect and no request; with a token, a start or end time that does not parse means the timestamp throws and no request; otherwise the request carries both parsed times, the ticket total as capacity, the chosen end-date base, the decoded creator id, the draft's fields and the bearer header |
| `Session.BearerHeader` | src/components/pages/ForgotPasswordPage.tsx:82 | the header is `Bearer ` followed by the token, or by `null` when none is held |
| `Session.BearerHeaderDistinguishes` | src/components/ui/EventsList.tsx:55 | two headers are equal exactly when their tokens read the same, so only an absent token and the text `null` share a header |
| `ForgotPassword.Settle` | src/components/pages/ForgotPasswordPage.tsx:40-46 | a handler proceeds exactly on a reply with `success` set, and then with that reply |
| `ForgotPassword.SettleShowsServerMessage` | src/components/pages/ForgotPasswordPage.tsx:41-45 | a failed reply that carries a message shows that message |
| `ForgotPassword.FallbackOnlyForNonErrors` | src/components/pages/ForgotPasswordPage.tsx:44-46 | the fallback text makes no difference unless a non-Error value is thrown; a thrown non-Error shows the fallback and a thrown Error shows its own message |
| `ForgotPassword.MissingMessageIsEmpty` | src/components/pages/ForgotPasswordPage.tsx:41-45 | every failed reply without a `message` field, whatever its other fields, shows an empty error toast |
| `ForgotPassword.Transition` | src/components/pages/ForgotPasswordPage.tsx:31-70 | one handler run moves the step forward by at most one and only on a successful reply, never by the reset handler; the token changes only on a verify run that reaches step 3 |
| `ForgotPassword.RunNeverGoesBack` | src/components/pages/ForgotPasswordPage.tsx:13-64 | across any handler runs the step stays in 1..3 and never decreases |
| `ForgotPassword.RunFromInitial` | src/components/pages/ForgotPasswordPage.tsx:41-64 | step 2 needs a successful send-email reply; step 3 needs a later successful verify reply, whose token is the one held; below step 3 no token is held |
| `ForgotPassword.TokenFixedAtStepThree` | src/components/pages/ForgotPasswordPage.tsx:72-96 | once at step 3 no handler changes the step or the token |
| `ForgotPassword.ForgotPasswordPage.constructor` | src/components/pages/ForgotPasswordPage.tsx:13-19 | the page starts at step 1 with no token, not loading, with empty inputs |
| `ForgotPassword.ForgotPasswordPage.SetEmail` | src/components/pages/ForgotPasswordPage.tsx:113 | the email input sets `email` |
| `ForgotPassword.ForgotPasswordPage.SetVerificationCode` | src/components/pages/ForgotPasswordPage.tsx:120 | the code input sets `verificationCode` |
| `ForgotPassword.ForgotPasswordPage.SetPassword` | src/components/pages/ForgotPasswordPage.tsx:137 | the password input sets `password` |
| `ForgotPassword.ForgotPasswordPage.SetConfirmPassword` | src/components/pages/ForgotPasswordPage.tsx:138 | the confirmation input sets `confirmPassword` |
| `ForgotPassword.ForgotPasswordPage.HandleSendEmail` | src/components/pages/ForgotPasswordPage.tsx:31-49 | sends the email; the step moves 1 to 2 exactly on success; the toast is the success text or the error message; `loading` ends false |
| `ForgotPassword.ForgotPasswordPage.HandleVerifyCode` | src/components/pages/ForgotPasswordPage.tsx:51-70 | sends email and code; on success the reply's token is held and the step moves 2 to 3, otherwise both are unchanged; `loading` ends false |
| `ForgotPassword.ForgotPasswordPage.HandleResetPassword` | src/components/pages/ForgotPasswordPage.tsx:72-96 | mismatched passwords send nothing and show the mismatch error; otherwise the password goes out under the reset token's bearer header; the page leaves for home exactly on success; step and token never change |
| `EventsList.ColorClassTotal` | src/components/ui/EventsList.tsx:105-106 | a listed type name gets its own class, every other name the grey default |
| `EventsList.ColorClass` | src/components/ui/EventsList.tsx:105-106 | every type name gets a non-empty class, either the grey default or one of the listed classes |
| `EventsList.ColorClassExamples` | src/components/ui/EventsList.tsx:33-39 | the five listed names map to their classes and an unlisted name to the default |
| `EventsList.Pills` | src/components/ui/EventsList.tsx:102-120 | a card has at least one pill; a single "No Type" pill exactly when the type list is missing or empty; otherwise one coloured pill per type, in order |
| `EventsList.ToggleExpandedTwice` | src/components/ui/EventsList.tsx:125-131 | two clicks on one card restore the previous state when that card or no card was expanded, and collapse everything when another card was |
| `EventsList.ToggleExpanded` | src/components/ui/EventsList.tsx:125-127 | the clicked card ends expanded exactly when it was not the expanded one, and no card is expanded exactly when it was |
| `EventsList.LaterFetchesNonNegative` | src/components/ui/EventsList.tsx:152-156 | from a non-negative page, no sequence of Previous/Next clicks fetches a negative page |
| `EventsList.PageAfter` | src/components/ui/EventsList.tsx:152-156 | Previous never gives a negative page; from a page at or above 0 each click moves at most one page; the page stays the same exactly for Previous on page 0, and from a page at or above 0 it goes up exactly for Next |
| `EventsList.LaterFetches` | src/components/ui/EventsList.tsx:68-70 | a click sequence triggers at most one fetch per click |
| `EventsList.PageWalk` | src/components/ui/EventsList.tsx:152-156 | from a non-negative page, the page the clicks reach is non-negative and at most one page per click higher |
| `EventsList.Trail` | src/components/ui/EventsList.tsx:152-156 | the page values after each prefix of the clicks start at the initial page and end at the page the clicks reach |
| `EventsList.Collapse` | src/components/ui/EventsList.tsx:68-70 | dropping repeats keeps the first and last values and leaves no two neighbours equal |
| `EventsList.FetchesCollapseTrail` | src/components/ui/EventsList.tsx:68-70 | the pages fetched are exactly the successive values of `page`, in order, with each repeat of the value before it dropped |
| `EventsList.LastFetchIsCurrentPage` | src/components/ui/EventsList.tsx:68-70 | the last page fetched is the page the clicks reach |
| `EventsList.FetchesAreAdjacent` | src/components/ui/EventsList.tsx:68-70 | each fetch after the first requests a page next to the previously fetched one |
| `EventsList.PagingExamples` | src/components/ui/EventsList.tsx:152 | from page 0, Previous fetches nothing more; Next then Previous fetches pages 0, 1, 0 |
| `EventsList.EventsPage.constructor` | src/components/ui/EventsList.tsx:42-45 | the list starts empty, on page 0, loading, with no card expanded |
| `EventsList.EventsPage.FetchEvents` | src/components/ui/EventsList.tsx:47-66 | requests the current page with size 6; a reply replaces the events wholesale, a failure keeps them; `loading` ends false |
| `EventsList.EventsPage.ClickPrevious` | src/components/ui/EventsList.tsx:152 | the page becomes `max(page-1, 0)`, and a refetch happens exactly when Previous was enabled |
| `EventsList.EventsPage.ClickNext` | src/components/ui/EventsList.tsx:156 | the page grows by one, with no upper bound, and a refetch follows |
| `EventsList.EventsPage.ClickDetails` | src/components/ui/EventsList.tsx:125-127 | the expanded card becomes the toggle of the clicked id |

## Left out

- HTTP requests and `localStorage` are not modelled. Server responses,
  the stored token and the clock are parameters.
- Decoding a JWT (`atob`, `JSON.parse`) is a foreign call. It is the
  parameter `decode`, which yields the `exp` and `userId` claims or
  `None` on failure. A caller's `decode` must give `exp` as the number the
  claim coerces to under `*` (`null` gives 0), and `None` when the claim is
  absent or coerces to `NaN` or `+Infinity`. A claim that coerces to
  `-Infinity` may be given as any negative number, since `Date.now()` is
  never negative.
- Wizard.Expired: computes `exp * 1000` exactly on reals, where the source
  multiplies doubles. The two can disagree only when rounding the product
  carries it across the clock reading.
- Rendering timestamps (`new Date`, `setHours`, `toISOString`) depends on
  the time zone. The submitted descriptor keeps each timestamp as its base
  date and its parsed hour and minute.
- Wizard.EventCreationWizard.HandleSubmit: a time that parses can still
  overflow the representable date range when its hour or minute is huge, and
  `toISOString` would then throw too. Dates are abstract, so the model
  posts in that case. The time picker only reports `HH:mm` values.
- Wizard.ParseInt: counts only the Unicode white space and line terminators
  listed in `IsJsSpace` as skippable. It reads digit runs as exact integers,
  while `parseInt` rounds runs longer than 15 digits to a double.
- `parseInt`/`parseFloat` of the ticket inputs are not modelled. Counts
  arrive as integers, and prices are carried but never reasoned about.
- FormData/Blob multipart assembly, toast styling, the `setTimeout`
  redirects, animations and rendering are not modelled.
- The handlers are atomic. The disabled-while-`loading` window and
  overlapping requests are not modelled. Responses to fast paging that
  arrive out of order are not modelled either.
- Step 1 fetches the event-type catalogue (EventCreationWizard.tsx:277-296)
  to list the buttons. That fetch is not modelled: the toggle takes the
  clicked id directly.
- The name and venue inputs are not separate methods. Each is
  `UpdateEventData` with a one-field partial.
- Wizard.EventCreationWizard.UpdateTicket: requires an index inside the
  tier list. Its callers pass rendered positions. An out-of-range
  assignment would grow a JavaScript array with holes.
- Wizard.EventCreationWizard.NavigateToStep: requires the review step,
  where the only callers are rendered.
- Session.BearerHeader: shows an absent token as `null`. When a
  verify reply lacks `token`, the reset handler sends `Bearer undefined`
  instead.
- EventsList.ColorClass: treats every name outside the five listed as
  unlisted. In the source, a name that is an `Object.prototype` property
  (`constructor`, `toString`) finds an inherited value instead of the
  default.
- A successful events reply whose body has `data` but no `content` in it
  sets the list to `undefined` (src/components/ui/EventsList.tsx:60), and
  the next render's `events.map` (line 85) then throws. The model's
  `Fetched` always carries a list. A reply body without `data` at all makes
  the `.content` access throw inside the `try`, so the catch runs and the
  list is kept; `FetchFailed` models that case.
- The login, signup and account-verification views, the home page, the
  navigation bar and the route table are not part of this model. Each is
  one request with a presence or equality check, or static markup.
