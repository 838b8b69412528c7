# Campus events client — a Dafny model

This project models the logic of a small campus-events web client. Organizers
publish events and students browse them. The model covers five pieces:

- **Student feed** (`student_feed.dfy`). It takes the seed events that fall in
  the coming week, both ends inclusive. It then keeps those whose title or
  club contains the search text, ignoring case, and whose category matches the
  selector or the selector is `"all"`. Only a signed-in student sees it.
- **Organizer dashboard** (`organizer_dashboard.dfy`). This is a class with the
  page's state: `events`, `formData` and `isDialogOpen`. Submitting the form is
  refused when the date is outside the one-week window. An accepted submission
  puts the new event at the front of the list, with zero counts and the
  comma-split, trimmed tags. It then empties the form and closes the dialog.
  Deleting drops every event with the given id.
- **Event card** (`event_card.dfy`). It has two independent participation
  flags, "Interested" and "Going", which students flip. Organizers get Edit and
  Delete buttons instead.
- **Session** (`auth_context.dfy`). It holds one nullable `user`. `Login` and
  `Signup` refuse a student whose email does not end in `"@college.edu"`
  (case-sensitive) and accept everyone else. Neither looks at the password.
  `Logout` clears the session.
- **Validation schemas** (`validation_schemas.dfy`). These are the login,
  signup and event schemas written as acceptance predicates. No page in the
  client calls them.

Supporting modules:

- `event.dfy`: the `Event` record, the eight seed events and the window tests.
- `seqs.dfy`: `Filter` and the subsequence relation.
- `text.dfy`: JavaScript's `trim`, `split`, `toLowerCase`, `includes` and
  `endsWith`.
- `wrappers.dfy`: `Option`.

Dates are millisecond timestamps. `new Date(text)` becomes a parameter
`parse: string -> Option<int>`, where `None` stands for the invalid date.
The clock, `now`, and the new event's id are parameters too.
JavaScript compares NaN as false both ways, so the two window tests disagree
on an unparsable date: the feed leaves it out, while the dashboard lets it
through (`EventTypes.InvalidDateSplitsTheTests`). The form's `required`
date-time input keeps the empty string out in a browser.

Four facts about the code shape the model:

- The feed is not sorted by date. It keeps the seed list's order.
- The two participation flags are independent booleans, not one exclusive
  status. Clicking a flag changes only the card's local state.
- No participation store or count refresh exists.
- The feed reads the constant seed list, so events created on the dashboard
  never reach it.

## Model

| member | source | states |
|---|---|---|
| `Seqs.Filter` | src/pages/StudentFeed.tsx:28-31 | `Array.prototype.filter`: no longer than the input, and every element it returns passes the predicate and comes from the input |
| `EventTypes.InWeek` | src/pages/StudentFeed.tsx:30 | the feed's window test holds iff the date is real and the dashboard's rejection test fails on it |
| `EventTypes.OutsideWeek` | src/pages/OrganizerDashboard.tsx:43 | the dashboard rejects a date iff it is real and not within `[now, now + 604800000]` |
| `EventTypes.WindowTestsAgree` | src/pages/StudentFeed.tsx:24-31 | the week is 604800000 ms; a real date is in the feed's window iff `now <= t <= now + 604800000`, and the dashboard rejects it iff it is not |
| `EventTypes.InvalidDateSplitsTheTests` | src/pages/OrganizerDashboard.tsx:39-43 | an unparsable date is neither rejected by the dashboard nor in the feed's window |
| `EventTypes.InitialEventsWellFormed` | src/types/event.ts:15-120 | eight seed events with distinct ids, non-negative counts, all created by the organizer account |
| `Text.Trim` | src/lib/validationSchemas.ts:6 | the trimmed text is no longer than the input, has no whitespace at either end, and holds only characters of the input |
| `Text.TrimSpec` | src/lib/validationSchemas.ts:6 | trim removes a whitespace prefix and a whitespace suffix and nothing else |
| `Text.TrimPadded` | src/lib/validationSchemas.ts:38-40 | trimming whitespace padding around a trimmed non-empty text gives that text back |
| `Text.Split` | src/pages/OrganizerDashboard.tsx:58 | `split(",")` yields one more piece than there are commas, and no piece contains a comma |
| `Text.SplitJoin` | src/pages/OrganizerDashboard.tsx:58 | joining the split pieces with the separator restores the input |
| `Text.Lower` | src/pages/StudentFeed.tsx:35-36 | lowercasing keeps the length, folds each character on its own, and leaves no ASCII capital |
| `Text.Includes` | src/pages/StudentFeed.tsx:35-36 | the empty query is included in every text, and nothing longer than the text is |
| `Text.IncludesIff` | src/pages/StudentFeed.tsx:35-36 | `includes` holds iff the query occurs at some index of the text |
| `Text.EndsWith` | src/contexts/AuthContext.tsx:21 | when `endsWith` holds, the text is its leading part followed by the suffix |
| `Text.EndsWithIff` | src/contexts/AuthContext.tsx:21 | `endsWith` holds iff the text is some prefix followed by the suffix |
| `StudentFeed.WeekEvents` | src/pages/StudentFeed.tsx:24-32 | no more events than the input, each with a real date in `[now, now + one week]` |
| `StudentFeed.MatchesSearch` | src/pages/StudentFeed.tsx:35-36 | the empty query matches every event |
| `StudentFeed.MatchesCategory` | src/pages/StudentFeed.tsx:37 | "all" matches every event; any other selector matches iff it equals the event's category exactly |
| `StudentFeed.Feed` | src/pages/StudentFeed.tsx:34-40 | no more events than the input, each dated in the week and passing both the search and the category test |
| `StudentFeed.Page` | src/pages/StudentFeed.tsx:19-40 | the page computes a feed iff a user is signed in with role student; that feed is a subsequence of the seed events and holds an event iff it is a seed event dated in the week that matches the search and the category |
| `StudentFeed.FeedMembership` | src/pages/StudentFeed.tsx:24-40 | an event is in the feed iff it is an input event, its date is in the inclusive week, it matches the search and it matches the category |
| `StudentFeed.FeedKeepsOrder` | src/pages/StudentFeed.tsx:28-40 | the feed is a subsequence of the input, in the input's order |
| `StudentFeed.FeedMultiplicity` | src/pages/StudentFeed.tsx:28-40 | a selected event occurs in the feed exactly as often as in the input, any other event not at all |
| `StudentFeed.MatchesSearchIff` | src/pages/StudentFeed.tsx:35-36 | the search holds iff the lowercased query occurs in the lowercased title or club |
| `StudentFeed.SearchIgnoresQueryCase` | src/pages/StudentFeed.tsx:35-36 | lowercasing the query does not change the search's verdict |
| `StudentFeed.DescriptionNotSearched` | src/pages/StudentFeed.tsx:35-36 | changing the description never changes the search's verdict |
| `StudentFeed.TitleHitIsListed` | src/pages/StudentFeed.tsx:34-40 | an in-week event whose title contains the query, ignoring case, is in the feed under category "all" |
| `StudentFeed.DefaultFiltersShowWholeWeek` | src/pages/StudentFeed.tsx:34-40 | with query "" and category "all" the feed equals the week's events |
| `StudentFeed.CategoryIsExact` | src/pages/StudentFeed.tsx:37 | under any selector other than "all", every listed event has exactly that category |
| `OrganizerDashboard.ParseTags` | src/pages/OrganizerDashboard.tsx:58 | one tag per comma plus one, the i-th being the trimmed i-th piece, with no edge whitespace and no comma; "" gives `[""]` |
| `OrganizerDashboard.NewEvent` | src/pages/OrganizerDashboard.tsx:52-64 | the new event has zero counts, the given id and creator, the form's text fields, and as tags exactly `ParseTags` of the form's tag text, so one trimmed, comma-free tag per comma plus one |
| `OrganizerDashboard.WithoutId` | src/pages/OrganizerDashboard.tsx:85 | no remaining event carries the deleted id, and each remaining event was in the list |
| `OrganizerDashboard.WithoutIdMembership` | src/pages/OrganizerDashboard.tsx:84-85 | after deleting an id, an event remains iff it was there and has another id |
| `OrganizerDashboard.WithoutIdKeepsOrder` | src/pages/OrganizerDashboard.tsx:84-85 | the remaining events keep their relative order |
| `OrganizerDashboard.WithoutAbsentId` | src/pages/OrganizerDashboard.tsx:84-85 | deleting an id no event carries leaves the list unchanged |
| `OrganizerDashboard.WithoutIdIdempotent` | src/pages/OrganizerDashboard.tsx:84-85 | deleting the same id twice equals deleting it once |
| `OrganizerDashboard.DeleteUndoesCreate` | src/pages/OrganizerDashboard.tsx:66 | deleting a prepended event whose id is fresh gives back the earlier list |
| `OrganizerDashboard.WithField` | src/pages/OrganizerDashboard.tsx:142-208 | the edited field reads back the new value and every other field reads back its old value |
| `OrganizerDashboard.RequiredFilled` | src/pages/OrganizerDashboard.tsx:138-208 | the browser allows submission iff every `required` field (title, club, description, date-time, venue) is non-empty; the empty form never qualifies |
| `OrganizerDashboard.Shows` | src/pages/OrganizerDashboard.tsx:31-34 | the dashboard renders iff a user is signed in whose role is not student; with no user it never does |
| `OrganizerDashboard.Dashboard.constructor` | src/pages/OrganizerDashboard.tsx:19-29 | starts with the seed events, the dialog closed and every form field empty |
| `OrganizerDashboard.Dashboard.SetDialogOpen` | src/pages/OrganizerDashboard.tsx:124 | the dialog's open state becomes the given value |
| `OrganizerDashboard.Dashboard.EditField` | src/pages/OrganizerDashboard.tsx:139-210 | one form field takes the typed value and the others keep theirs |
| `OrganizerDashboard.Dashboard.HandleSubmit` | src/pages/OrganizerDashboard.tsx:36-82 | called by a signed-in organizer with the dialog open; accepted iff the date is not outside the week; if accepted, the list is the new event (form fields, trimmed tags, creator = organizer's email, zero counts) followed by the old list, the dialog is closed and the form is empty; otherwise nothing changes |
| `OrganizerDashboard.Dashboard.Submit` | src/pages/OrganizerDashboard.tsx:124-213 | pressed in the open dialog, which holds the form; an event is created iff every required field is non-empty and the date is not outside the week, with the effects of `HandleSubmit`; otherwise nothing changes |
| `OrganizerDashboard.Dashboard.HandleDelete` | src/pages/OrganizerDashboard.tsx:84-90 | the list becomes the old list without the events carrying the given id |
| `OrganizerDashboard.ClickOnDashboardCard` | src/pages/OrganizerDashboard.tsx:225-230 | on a dashboard card, Edit hands nothing over (no `onEdit` is passed), and Delete removes that card's event by id |
| `EventCard.FlipInterested` | src/components/EventCard.tsx:83 | the interested flag flips and the going flag keeps its value |
| `EventCard.FlipGoing` | src/components/EventCard.tsx:91 | the going flag flips and the interested flag keeps its value |
| `EventCard.Controls` | src/components/EventCard.tsx:77-117 | a card shows two buttons, each an organizer's button (Edit, Delete) iff the viewer is an organizer |
| `EventCard.TogglesAreIndependent` | src/components/EventCard.tsx:80-95 | each click flips only its own flag, a double click restores the state, and the two clicks commute |
| `EventCard.BothFlagsCanBeSet` | src/components/EventCard.tsx:16-17 | from the initial all-false state, one click on each sets both flags |
| `EventCard.ClicksParity` | src/components/EventCard.tsx:83-91 | after any click sequence, each flag is its start value flipped once per click on its own button |
| `EventCard.ControlsByRole` | src/components/EventCard.tsx:77-117 | toggles show iff the viewer is not an organizer, Edit and Delete iff they are; buttons show their flags and Delete carries the event id |
| `EventCard.CardReadsAbsentProperties` | src/components/EventCard.tsx:54-62 | as written, the card's date and counts read `undefined` for every event |
| `EventCard.ShownDetailsAreTheEvents` | src/components/EventCard.tsx:54-62 | as corrected, the card shows the event's own counts and date unchanged |
| `EventCard.Card.View` | src/components/EventCard.tsx:31-120 | the card shows the event's own counts and date text, two buttons, the two toggles with their flags iff the viewer is not an organizer, and Edit and Delete (carrying the event's id) iff they are |
| `EventCard.Card.constructor` | src/components/EventCard.tsx:15-17 | a new card has both flags false |
| `EventCard.Card.ClickInterested` | src/components/EventCard.tsx:83 | the state becomes `FlipInterested` of the old state |
| `EventCard.Card.ClickGoing` | src/components/EventCard.tsx:91 | the state becomes `FlipGoing` of the old state |
| `EventCard.Card.ClickDelete` | src/components/EventCard.tsx:108-115 | hands over the event's id, which the Delete button carries, iff `onDelete` was given |
| `EventCard.Card.ClickEdit` | src/components/EventCard.tsx:100-107 | hands over the event iff `onEdit` was given |
| `AuthContext.Admits` | src/contexts/AuthContext.tsx:21 | an organizer is always admitted; a student iff the email ends in "@college.edu" |
| `AuthContext.AdmitsIff` | src/contexts/AuthContext.tsx:20-26 | admitted iff the role is organizer or the email is some text followed by "@college.edu" |
| `AuthContext.SuffixIsCaseSensitive` | src/contexts/AuthContext.tsx:21 | "@COLLEGE.EDU" and ".college.edu" are refused for a student; an organizer is accepted with either |
| `AuthContext.AuthProvider.constructor` | src/contexts/AuthContext.tsx:18 | no user at first |
| `AuthContext.AuthProvider.Login` | src/contexts/AuthContext.tsx:20-26 | returns true iff admitted; then the user is `{email, role}`, otherwise the old user stays |
| `AuthContext.AuthProvider.Signup` | src/contexts/AuthContext.tsx:28-34 | the same rule and effect as `Login` |
| `AuthContext.AuthProvider.Logout` | src/contexts/AuthContext.tsx:36-38 | the user becomes null from any state |
| `ValidationSchemas.LoginAccepts` | src/lib/validationSchemas.ts:3-13 | accepted iff the trimmed email is well-formed and at most 255 characters and the untrimmed password has 8 to 100 characters |
| `ValidationSchemas.SignupAccepts` | src/lib/validationSchemas.ts:15-33 | a signup is accepted iff it passes login, its password has an `A`-`Z` and a `0`-`9` character, and a given full name trims to 1 to 100 characters |
| `ValidationSchemas.EventAccepts` | src/lib/validationSchemas.ts:35-61 | an event is accepted iff its trimmed title has 1 to 200 characters, a given description, category and venue trim to at most 2000, 50 and 200 characters, given tags number at most 10 and each trims to at most 30 characters, and the date-time is non-empty |
| `ValidationSchemas.EmailLengthBoundary` | src/lib/validationSchemas.ts:4-8 | a well-formed trimmed address of 255 characters passes and one of 256 fails, whatever whitespace pads it |
| `ValidationSchemas.PasswordLengthBoundary` | src/lib/validationSchemas.ts:9-12 | a password passes iff it has 8 to 100 characters; whitespace counts |
| `ValidationSchemas.SignupIsStricterThanLogin` | src/lib/validationSchemas.ts:15-26 | whatever signup accepts, login accepts; a password with no upper-case letter passes login only |
| `ValidationSchemas.BlankFullNameRejected` | src/lib/validationSchemas.ts:27-32 | a blank full name is refused and an absent one adds no condition |
| `ValidationSchemas.TitleBoundary` | src/lib/validationSchemas.ts:36-40 | a trimmed title of 1 to 200 characters passes and one of 201 is refused, whatever whitespace pads it |
| `ValidationSchemas.OptionalFieldBoundary` | src/lib/validationSchemas.ts:41-59 | an absent description, category or venue passes; a present one is judged on its trimmed form, passing within 2000, 50 and 200 characters respectively and making the event fail beyond, whatever whitespace pads it |
| `ValidationSchemas.BlankTitleRejected` | src/lib/validationSchemas.ts:36-40 | a whitespace-only title is refused |
| `ValidationSchemas.MinimalEventInput` | src/lib/validationSchemas.ts:35-61 | with every optional field absent, an event passes iff its trimmed title has 1 to 200 characters and the date-time text is non-empty |
| `ValidationSchemas.ElevenTagsFail` | src/lib/validationSchemas.ts:53 | any eleven or more tags are refused |
| `ValidationSchemas.TagCountBound` | src/lib/validationSchemas.ts:51-54 | tags whose trimmed lengths are all at most 30 pass iff there are at most ten |
| `ValidationSchemas.TagLengthBoundary` | src/lib/validationSchemas.ts:52 | a trimmed tag of 30 characters passes and one of 31 fails, whatever whitespace pads it |

## Left out

- `src/components/BackgroundAnimation.tsx`, `src/pages/Index.tsx` and
  `src/pages/Login.tsx` are not part of this model. They hold a cosmetic
  animation, static markup, and UI glue around `login` and `signup`.
- `formatDateTime` is left out because it uses locale-dependent formatting.
  The card shows the date as the raw `Property` value.
- `EventCard.Card` renders the corrected card (`ShownCounts`, `ShownDate`).
  The card as written, which shows neither value, is stated only by
  `EventCard.CardReadsAbsentProperties`.
- Parsing dates with `new Date(text)` and reading the clock with `new Date()`
  become the parameters `parse` and `now`.
- Id generation with `Date.now().toString()` becomes the parameter `newId`.
  Its uniqueness is not assumed.
- zod's `.email()` format check becomes the parameter `isEmail`. zod's error
  messages, the first-violation reporting and the trimmed output value are
  not modelled; only acceptance is.
- `toLowerCase` is modelled on ASCII letters only, because Unicode case
  mapping is outside the model.
- Lengths count Unicode scalar values, while JavaScript counts UTF-16 code
  units. The two differ only for characters outside the Basic Multilingual
  Plane.
- Counts are Dafny integers. JavaScript numbers would also allow fractions,
  which the client never produces.
- Toasts, `navigate`, React rendering and re-rendering, and the
  `async`/`Promise` wrappers of `login` and `signup` are left out. None of
  them affect state.
- The student feed's `dateFilter` state is left out because nothing reads it.
- The category select offers four categories, but the model accepts any
  category text. The select constrains only the widget.

## Findings

| source | as written | input that shows it | evidently intended | confidence | as-written member | corrected member |
|---|---|---|---|---|---|---|
| src/components/EventCard.tsx:62 | the counts line reads `event.interested_count` and `event.going_count`, which the `Event` type does not declare | any event, e.g. the seed event with id "1": React renders `undefined` as nothing, so the line reads " interested ·  going" | show `event.interested` and `event.going` | high that the properties are absent, not executed | `EventCard.CardReadsAbsentProperties` | `EventCard.ShownDetailsAreTheEvents` |
| src/components/EventCard.tsx:54 | the date line formats `event.event_date_time`, which the `Event` type does not declare | any event, e.g. the seed event with id "1": `formatDateTime(undefined)` builds `new Date(undefined)`, the invalid date, so the line reads "Invalid Date" | format `event.dateTime` | high that the property is absent, not executed | `EventCard.CardReadsAbsentProperties` | `EventCard.ShownDetailsAreTheEvents` |
