# meet-app: votes, meeting creation, AI suggestions and the create form

meet-app is a meeting poll built on Next.js. An organizer fills in the
create form (title, description, their name, candidate times and
locations). The form posts to `POST /api/meetings/create`, which stores one
meeting under a fresh public link and then one row per option. Participants
answer with `POST /api/votes`. That route replaces the participant's whole
vote set for the meeting: a delete by (meeting, participant) followed by a
batch insert. `POST /api/ai/suggestions` asks a text-generation service for
dates, locations, a best-option recommendation or an invitation text. Without
a credential, and on any failure, it falls back to fixed defaults.

The Dafny project models these four pieces.

- `records.dfy` (module `Records`): the table rows (meeting, time option,
  location option, vote) and JavaScript truthiness of an optional string.
- `database.dfy` (module `Database`): the data store as one class `Store`
  with four tables held as sequences. Batch inserts are all-or-nothing, the
  delete is filtered by equality, and ids and links are fresh tokens. Whether
  a store call fails is a parameter chosen by the caller (the environment),
  so every property holds for every pattern of store failures.
- `votes_route.dfy` (module `VotesRoute`): the votes handler on a `Store`.
  Its companion functions `VotesOf` (a participant's rows, in table order)
  and `Replaced` (delete, then append) carry the replacement lemmas.
- `create_route.dfy` (module `CreateRoute`): the create handler on a
  `Store`, with `ExpectedStatus` as its independent status specification.
- `suggestions.dfy` (module `Suggestions`): prompt templating, the fixed
  defaults, greedy bracket extraction and the handler's `isAiGenerated`
  decision. The chat service, `JSON.stringify` and `JSON.parse` are
  function parameters.
- `create_page.dfy` (module `CreatePage`): `String.prototype.trim`, the
  form's list handlers as a class `CreateForm`, and the submit checks with
  the body they send.

Modelling choices:

- A request body that `request.json()` cannot read is `None`.
- A missing field is `None`.
- A template literal of a missing field renders as `"undefined"`.
- Reading a field of an undefined `context` throws. This is modelled as
  `Outcome.Throws`, and the handler's `catch` turns it into the fallback.
- `parseSuggestions` runs on every reply, best-option and invitation
  included. It looks for a bracketed span and otherwise falls back to the
  defaults for that type with an empty context, so an invitation reply
  without brackets becomes the default invitation with an `undefined` title
  and link (`Suggestions.InvitationParseFallbackLosesContext`).
- An OK reply whose `choices[0].message.content` is not a string throws
  inside `parseSuggestions`, whose own `catch` answers the defaults; the
  response still says `isAiGenerated: true` (`Suggestions.Post`).
- The meeting row is committed first, and nothing is undone when an option
  insert fails (`CreateRoute.Post`).
- A parsed reply is whatever `JSON.parse` yields (`Suggestion.Parsed`), not
  necessarily a list of strings.
- A suggestions request whose body is unreadable or `null` is `None`; a body
  that is a number, string or boolean destructures to no type and no context.

## Model

| member | source | states |
|---|---|---|
| Database.DeleteVotesOf | app/api/votes/route.ts:16-20 | the delete keeps exactly the rows not of (meeting, participant), and never grows the table |
| Database.Store.NewToken | BoltMeetingPlannerApp-main/app/api/meetings/create/route.ts:19 | the link token is one never handed out before |
| Database.Store.NewTokens | lib/supabase.ts:8-41 | row ids of a batch are pairwise distinct and never used before |
| Database.Store.InsertMeeting | BoltMeetingPlannerApp-main/app/api/meetings/create/route.ts:22-36 | `insert().select().single()`: on success exactly the given row is appended under a fresh id, on failure nothing changes; other tables untouched |
| Database.Store.InsertTimeOptions | BoltMeetingPlannerApp-main/app/api/meetings/create/route.ts:46-50 | a batch insert appends all the given rows in order, or none when it fails |
| Database.Store.InsertLocationOptions | BoltMeetingPlannerApp-main/app/api/meetings/create/route.ts:59-63 | a batch insert appends all the given rows in order, or none when it fails |
| Database.Store.InsertVotes | app/api/votes/route.ts:30-32 | a batch insert appends all the given vote rows in order, or none when it fails |
| Database.Store.DeleteVotes | app/api/votes/route.ts:16-20 | on success the votes table is the filtered table, on failure it is unchanged |
| VotesRoute.Accepted | app/api/votes/route.ts:9 | the guard: meeting id, participant name and a non-empty vote list all present and truthy |
| VotesRoute.OrNull | app/api/votes/route.ts:25-26 | the `or null` default: the id is kept when it is a non-empty string, null otherwise |
| VotesRoute.BatchRows | app/api/votes/route.ts:22-28 | one row per submitted entry, in order, with the request's meeting and participant and the entry's vote type |
| VotesRoute.Post | app/api/votes/route.ts:4-44 | unreadable body gives 500 and missing meeting, participant or an empty vote list gives 400, both with no change; otherwise 200 exactly when the insert succeeds, and the table is the old or the deleted table followed by the new rows |
| VotesRoute.PostChecked | app/api/votes/route.ts:16-34 | corrected route: a failed delete answers 500 with nothing inserted, and a 200 leaves exactly `Replaced(...)` |
| VotesRoute.DeleteLeavesNoVotes | app/api/votes/route.ts:16-20 | after the delete the participant has no votes in the meeting |
| VotesRoute.DeleteKeepsOthers | app/api/votes/route.ts:16-20 | the delete leaves every other (meeting, participant) pair's votes as they were, in order |
| VotesRoute.ReplacementIsExact | app/api/votes/route.ts:16-34 | after a replacement the participant's votes are exactly the submitted ones, in order (full replacement) |
| VotesRoute.ReplacementKeepsOthers | app/api/votes/route.ts:16-34 | a replacement does not change any other pair's votes, and deleting the participant again gives the pre-replacement remainder |
| VotesRoute.ReplacementIdempotent | app/api/votes/route.ts:16-34 | submitting the same vote set twice leaves the same table, up to row ids, as submitting it once |
| VotesRoute.SecondSubmissionWins | app/api/votes/route.ts:16-34 | after two submissions only the second set remains for the participant |
| VotesRoute.ResubmitDropsUnnamedTimeOption | app/api/votes/route.ts:16-28 | a time option not named in the new submission has no vote of the participant left |
| VotesRoute.ResubmitDropsUnnamedLocationOption | app/api/votes/route.ts:16-28 | a location option not named in the new submission has no vote of the participant left |
| VotesRoute.OptionShapeUnchecked | app/api/votes/route.ts:9-28 | an entry naming both options, or neither, passes the guard and is stored as given |
| VotesRoute.IgnoredDeleteFailureMerges | app/api/votes/route.ts:16-34 | with the delete failing and the insert succeeding, the participant's old votes stay in front of the new ones, which is not a replacement |
| CreateRoute.HasRequired | BoltMeetingPlannerApp-main/app/api/meetings/create/route.ts:12 | the guard: title and organizer name both present and non-empty |
| CreateRoute.NonEmpty | BoltMeetingPlannerApp-main/app/api/meetings/create/route.ts:40 | an option list is inserted only when present and non-empty |
| CreateRoute.StoredDescription | BoltMeetingPlannerApp-main/app/api/meetings/create/route.ts:27 | the `or ''` default: the given description when non-empty, otherwise the empty string |
| CreateRoute.Entries | BoltMeetingPlannerApp-main/app/api/meetings/create/route.ts:40 | the insert for a list runs exactly when the list is present and non-empty |
| CreateRoute.TimeRows | BoltMeetingPlannerApp-main/app/api/meetings/create/route.ts:41-44 | one time-option row per datetime, in order, each tied to the meeting id |
| CreateRoute.LocationRows | BoltMeetingPlannerApp-main/app/api/meetings/create/route.ts:54-57 | one location-option row per location, in order, each tied to the meeting id |
| CreateRoute.Post | BoltMeetingPlannerApp-main/app/api/meetings/create/route.ts:5-74 | status is `ExpectedStatus`; nothing is written before the meeting row; the meeting has a fresh id, a link unlike every existing one, the given title and organizer and the defaulted description; time and location rows are all stored or none; a later failure keeps what was written (no rollback); the votes table is untouched |
| CreateRoute.RejectsExactlyMissingRequired | BoltMeetingPlannerApp-main/app/api/meetings/create/route.ts:12-17 | 400 exactly when title or organizer name is missing or empty, whatever the lists and the store do |
| CreateRoute.CreatedWhenStoreSucceeds | BoltMeetingPlannerApp-main/app/api/meetings/create/route.ts:12-66 | a body with both required fields is created when no store call fails |
| CreateRoute.TimeRowsRoundTrip | BoltMeetingPlannerApp-main/app/api/meetings/create/route.ts:40-51 | the time rows read back by meeting id are exactly the submitted datetimes |
| CreateRoute.LocationRowsRoundTrip | BoltMeetingPlannerApp-main/app/api/meetings/create/route.ts:53-64 | the location rows read back by meeting id are exactly the submitted locations |
| CreateRoute.DatetimesOfFreshId | BoltMeetingPlannerApp-main/app/api/meetings/create/route.ts:22-42 | existing time rows hold nothing for a freshly issued meeting id |
| CreateRoute.NewMeetingTimes | BoltMeetingPlannerApp-main/app/api/meetings/create/route.ts:40-51 | after creation the table's times for the new meeting are exactly the submitted datetimes |
| CreateRoute.LocationsOfFreshId | BoltMeetingPlannerApp-main/app/api/meetings/create/route.ts:22-55 | existing location rows hold nothing for a freshly issued meeting id |
| CreateRoute.NewMeetingLocations | BoltMeetingPlannerApp-main/app/api/meetings/create/route.ts:53-64 | after creation the table's locations for the new meeting are exactly the submitted locations |
| Suggestions.Render | app/api/ai/suggestions/route.ts:58-64 | a template slot renders the string, or `undefined` for a missing field |
| Suggestions.RenderJson | app/api/ai/suggestions/route.ts:62 | the votes slot holds the stringified votes, or `undefined` when there are none |
| Suggestions.GeneratePrompt | app/api/ai/suggestions/route.ts:56-67 | an unknown type gives the empty prompt whatever the context; a known type throws exactly when the context is undefined or `null` |
| Suggestions.DatesPromptEmbedsTitle | app/api/ai/suggestions/route.ts:57-58 | the dates prompt holds the rendered title right after its fixed opening |
| Suggestions.LocationsPromptEmbedsTitleAndDescription | app/api/ai/suggestions/route.ts:59-60 | the locations prompt holds the title and the description at their slots |
| Suggestions.BestOptionPromptEmbedsVotes | app/api/ai/suggestions/route.ts:61-62 | the best-option prompt holds the stringified votes at its slot |
| Suggestions.InvitationPromptEmbedsTitleDescriptionLink | app/api/ai/suggestions/route.ts:63-64 | the invitation prompt holds title, description and link at their slots |
| Suggestions.DefaultDates | app/api/ai/suggestions/route.ts:83-91 | three dates, 3, 6 and 9 days ahead, each at 14:00:00.000 |
| Suggestions.BuildDefaultDates | app/api/ai/suggestions/route.ts:83-91 | the loop builds the three default dates in order |
| Suggestions.DefaultFor | app/api/ai/suggestions/route.ts:81-100 | the default's shape follows the type: dates only for `dates`, a non-empty list of names only for `locations`, a message exactly for best-option and invitation, never parsed JSON |
| Suggestions.DefaultSuggestions | app/api/ai/suggestions/route.ts:81-100 | `getDefaultSuggestions(type, context)` throws exactly for an invitation with an undefined context; otherwise it is the default with a missing context read as `{}` |
| Suggestions.DefaultContents | app/api/ai/suggestions/route.ts:81-100 | the fixed default per type: the dates, the three Polish locations, the best-option sentence, the invitation around title and link, `[]` for any other type |
| Suggestions.DefaultWithoutContext | app/api/ai/suggestions/route.ts:81-100 | with an undefined context only the invitation default throws; the others ignore the context |
| Suggestions.FirstIndex | app/api/ai/suggestions/route.ts:71 | the first occurrence of a character, or none |
| Suggestions.LastIndex | app/api/ai/suggestions/route.ts:71 | the last occurrence of a character, or none |
| Suggestions.BracketSpan | app/api/ai/suggestions/route.ts:71 | a match is a piece of the content at least two long that opens with `[` and closes with `]` |
| Suggestions.BracketSpanExists | app/api/ai/suggestions/route.ts:71-72 | `/\[.*\]/s` matches exactly when some `[` comes before some `]` |
| Suggestions.BracketSpanBounds | app/api/ai/suggestions/route.ts:71-73 | the match runs from the first `[` to the last `]` (greedy), line breaks included |
| Suggestions.ParseSuggestions | app/api/ai/suggestions/route.ts:69-79 | a parsed result comes from string content whose bracket span the parser accepted, with exactly the parser's value; any other result is the type's default with an empty context |
| Suggestions.ParseSpec | app/api/ai/suggestions/route.ts:69-79 | content that is not a string, no bracket span, or an unparsable span gives the type's defaults with an empty context; otherwise the parsed span; without a string span the parser is never consulted |
| Suggestions.InvitationParseFallbackLosesContext | app/api/ai/suggestions/route.ts:69-79 | an invitation reply that is not a string or has no brackets is replaced by the default invitation with `undefined` title and link |
| Suggestions.Post | app/api/ai/suggestions/route.ts:3-54 | `isAiGenerated` exactly when there is a body, a key, a prompt that did not throw and a readable reply; then the suggestions are that reply parsed, and a reply whose content is not a string gives the defaults with an empty context while still claiming AI; otherwise the type's defaults, with an empty context when the context is missing |
| Suggestions.Fallback | app/api/ai/suggestions/route.ts:47-53 | the catch branch answers the type's defaults, with an empty context when the context is missing, and never claims AI |
| CreatePage.TrimStartShape | app/create/page.tsx:97 | trimming the front leaves a suffix that does not start with white space |
| CreatePage.TrimEndShape | app/create/page.tsx:97 | trimming the back leaves a prefix that does not end with white space |
| CreatePage.Trim | app/create/page.tsx:97-98 | `trim` never lengthens a row, and a non-empty result neither starts nor ends with white space |
| CreatePage.TrimEmptyIffAllSpace | app/create/page.tsx:97-98 | `t.trim() === ''` exactly when every character is white space |
| CreatePage.WithBlankRow | app/create/page.tsx:27-29 | adding a row appends one empty row and keeps the others |
| CreatePage.RemoveFrom | app/create/page.tsx:31-33 | the filter drops exactly the row at the index |
| CreatePage.RemoveAt | app/create/page.tsx:31-33 | removal shortens the list by one and shifts later rows down; an index out of range changes nothing |
| CreatePage.ChangeRow | app/create/page.tsx:35-39 | a copy with only the row at the index replaced |
| CreatePage.FilledRows | app/create/page.tsx:97-98 | the filter never lengthens the list and every row it keeps is filled |
| CreatePage.FilledRowsCount | app/create/page.tsx:97-98 | the filter keeps a blank row never and any other row as often as it occurs |
| CreatePage.FilledRowsSpec | app/create/page.tsx:97-98 | the filter keeps every non-blank row as often as it occurs, drops every blank one, keeps order across any split, and never yields `''` |
| CreatePage.IsoOf | app/create/page.tsx:113-120 | a row converts to its ISO string when it is non-empty and parses, and to `''` otherwise |
| CreatePage.IsoTimes | app/create/page.tsx:113-121 | no more times than filled rows, no `''`, and each one is the conversion of some filled row |
| CreatePage.IsoTimesOne | app/create/page.tsx:113-121 | on a single row the conversion keeps exactly a row whose ISO string is not `''` |
| CreatePage.IsoTimesAppend | app/create/page.tsx:113-121 | the conversion distributes over concatenation, so every converting row is kept in its original order |
| CreatePage.IsoTimesKeepsParsed | app/create/page.tsx:113-121 | when every row parses, no time is dropped |
| CreatePage.Submission | app/create/page.tsx:89-131 | the submit decision: missing title or organizer, then no filled row, otherwise the body sent; its properties are stated by `SubmissionSpec` |
| CreatePage.SubmissionSpec | app/create/page.tsx:89-131 | rejected for missing title or organizer first, then for all rows blank; otherwise the body carries the fields as typed, the filled locations and exactly the ISO conversion of the filled time rows, none of them `''` |
| CreatePage.NoFilledIffAllBlank | app/create/page.tsx:97-103 | no row survives the filter exactly when every row is blank |
| CreatePage.SentBodyIsAccepted | app/create/page.tsx:123-131 | every body the form sends passes the create route's required-field check and is created when the store does not fail |
| CreatePage.CreateForm.constructor | app/create/page.tsx:18-25 | empty fields and one empty row in each list |
| CreatePage.CreateForm.HandleAddTime | app/create/page.tsx:27-29 | the time list gains one empty row at the end; nothing else changes |
| CreatePage.CreateForm.HandleRemoveTime | app/create/page.tsx:31-33 | the time row at the index is removed; at least one row stays |
| CreatePage.CreateForm.HandleTimeChange | app/create/page.tsx:35-39 | only the time row at the index takes the new value |
| CreatePage.CreateForm.HandleAddLocation | app/create/page.tsx:41-43 | the location list gains one empty row at the end; nothing else changes |
| CreatePage.CreateForm.HandleRemoveLocation | app/create/page.tsx:45-47 | the location row at the index is removed; at least one row stays |
| CreatePage.CreateForm.HandleLocationChange | app/create/page.tsx:49-53 | only the location row at the index takes the new value |
| CreatePage.CreateForm.TakeSuggestedTimes | app/create/page.tsx:72-76 | the time list is replaced wholesale by the suggestions, so it may be left with no row |
| CreatePage.CreateForm.TakeSuggestedLocations | app/create/page.tsx:77-79 | the location list is replaced wholesale by the suggestions, so it may be left with no row |
| CreatePage.CreateForm.HandleSubmit | app/create/page.tsx:89-131 | the decision is `Submission` of the form's current state; the form is not changed |

## Left out

- Row timestamps (`created_at`, `updated_at`) are not modelled. No handler here reads them.
- The Supabase client, the network and concurrent requests are not modelled. Each store call is one atomic step on in-memory tables, and its failure is a parameter.
- The delete-then-insert race visible to concurrent readers is not modelled, because the model is sequential.
- The OpenAI request (endpoint, headers, model name, temperature, token cap, system message) is not modelled. The service is a function from the user prompt to a reply; a failed fetch, a non-OK status and an unreadable response body are all `Reply` cases that end in the fallback.
- `JSON.stringify`, `JSON.parse`, `new Date`, `toISOString` and `isNaN(getTime())` are function parameters, not models of the JavaScript library.
- Default dates are modelled as (days ahead, 14:00:00.000). Calendar carry-over and the server's time zone are not modelled.
- Context fields that are not strings (numbers or objects in `title`, `description` or `link`) are not modelled; they are treated as strings or missing. A `context` that is a number, string or boolean is not modelled either; for it the prompts would read `undefined` without throwing. A body whose `votes` or option lists are not arrays is not modelled either.
- `generateUniqueLink` (`lib/generate-link`) is not part of this model. The link is any token not handed out before, which is the property the route relies on.
- An invalid `vote_type` string is not modelled. The vote type is an enumeration, and the database enum's rejection would be an insert failure.
- The UI (rendering, toasts, router navigation, the `loading` and `aiLoading` flags) and the form's network call and response handling (app/create/page.tsx:105-150) are not modelled.
- `handleAiSuggestions` (app/create/page.tsx:55-87) is modelled only by its effect on the form, `CreateForm.TakeSuggestedTimes` and `CreateForm.TakeSuggestedLocations`. The request, the date conversion with `slice(0, 16)`, the toasts and the `aiLoading` flag are not modelled.
- CreatePage.CreateForm.Valid: both lists having at least one row holds only under adding, removing and changing rows. Taking over suggestions replaces a list wholesale, and an empty suggestion list leaves that list with no row. The handlers therefore do not require it, and only promise to keep it.
- The GET, PUT and DELETE handlers of a meeting, vote tallies and the meeting page are not modelled. They are outside this core.
- CreatePage.CreateForm.HandleTimeChange: requires an index inside the list. The page only binds the handler to rendered rows; a JavaScript assignment past the end would grow the array.
- CreatePage.CreateForm.HandleLocationChange: requires an index inside the list, for the same reason.
- CreatePage.ChangeRow: requires an index inside the list, for the same reason.
- CreatePage.CreateForm.HandleRemoveTime: requires more than one row, because the page shows the remove button only then (app/create/page.tsx:242).
- CreatePage.CreateForm.HandleRemoveLocation: requires more than one row, because the page shows the remove button only then (app/create/page.tsx:299).
- Database.Store.InsertTimeOptions: requires the meeting id to be one the store issued, standing for the foreign key.
- Database.Store.InsertLocationOptions: requires the meeting id to be one the store issued, standing for the foreign key.

## Findings

| source | as written | input that shows it | evidently intended | confidence | as-written member | corrected member |
|---|---|---|---|---|---|---|
| app/api/votes/route.ts:16-20 | the result of the delete is never inspected, so a failed delete is followed by the insert and a 200 | a participant with earlier votes resubmits while the delete fails and the insert succeeds: the answer is 200 and the old votes remain beside the new ones | a failed delete answers 500 and inserts nothing, so that a 200 always means the vote set was replaced | not executed | VotesRoute.IgnoredDeleteFailureMerges | VotesRoute.PostChecked |
