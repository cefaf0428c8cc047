# RecPlusCRM data layer in Dafny

RecPlusCRM is a recruitment back-office web application. Its screens hold a small amount of
real logic, and this project models that logic and proves properties of it:

- **Records** (`types.dfy`, module `Types`): the records `Candidate`, `Company`, `Job`, `User`
  and `Office`, with closed enumerations for the candidate status, the job status and the user
  role. Optional fields become `Option`. A candidate's `tags` are always a list; its `rating`
  and `assignedTo` are optional. A company's `openPositions` is a required integer. Dates are an
  integer count of milliseconds (`Instant`).
- **Kanban board** (`kanban.dfy`, module `Kanban`). There are five recruitment stages, and the
  column configuration lists each one once, in order. `getCandidatesByStage` sorts candidates
  into per-stage buckets, keeping their order. A column is drawn for every stage, and its badge
  shows the column's card count. The buckets partition the input.
- **Candidates page** (`candidates.dfy`, module `Candidates`; the state is class
  `CandidatesPage`):
  - the status-to-stage table with its default, and the stage-to-status table;
  - the three equality filters, each with an `all` wildcard;
  - the case-insensitive search;
  - the Kanban list, which is the filter chain without rejected candidates;
  - the distinct positions;
  - the lookup behind a click, and the create-or-update routing of a save (`saving.dfy`,
    shared).
- **Companies page** (`companies.dfy`, module `Companies`; class `CompaniesPage`): the industry
  filter and the search, the distinct industries, the three summary figures, the click lookup
  and the save routing.
- **Company form** (`company_form.dfy`, module `CompanyForm`; class `CompanyDetailModal`):
  - the email validator and the phone validator. Each is written as a hand-made recogniser and
    proved equal to a plain description of the language it accepts.
  - the validation rule table;
  - how the form is filled from a company, and the record built on submit;
  - the jobs tab;
  - the tab, submit and cancel behaviour of the modal, which the page mounts once and reopens for each company.
- **AI assistant** (`assistant.dfy`, module `Assistant`; class `AssistantPage`):
  - the chat list. Blank input is ignored. A send appends the user's message and a loading
    placeholder. The delayed reply later overwrites the first placeholder in place, found by a
    linear scan.
  - the keyword classifier and its priority order;
  - the four quick-action prompts, each proved to reach its own template.

Shared helpers: `wrappers.dfy` (`Option`), `seqs.dfy` (filter, find, distinct, map,
subsequence) and `text.dfy` (JavaScript whitespace and `trim`, ASCII lower-casing, substring
search).

The model follows the declared candidate status type, which has five values and no `waiting`.
The page's code also treats `waiting` as a status: the status-to-stage table is keyed by
strings and includes it, the stage change declares a local six-value status type
(`src/app/candidates/page.tsx:117`), and the status badge tables name it
(`src/app/candidates/page.tsx:193` and `:202`). Under the declared type:

- the Client Review column is always empty (`Candidates.ClientReviewColumnEmpty`). A server
  that did store `waiting` would fill it, so this holds only under the declared type;
- dragging to that column would send the undeclared status `waiting`
  (`Candidates.ClientWaitingStatusUndeclared`).

## Model

| member | source | states |
|---|---|---|
| Types.StatusNamesBijective | src/types/index.ts:9 | The five status names parse back to their status, only those names parse, and `waiting` is not one of them |
| Types.JobStatusNamesBijective | src/types/index.ts:44 | The job status is exactly one of `open`, `filled`, `closed`; names and values correspond one to one |
| Types.RoleNamesBijective | src/types/index.ts:55 | The role is exactly one of `super_admin`, `admin`, `employee`; names and values correspond one to one |
| Saving.RouteFor | src/app/candidates/page.tsx:140-146 | Saving creates exactly when the id starts with `temp-`, and updates otherwise |
| Saving.TempIdsCreate | src/components/companies/CompanyDetailModal.tsx:99 | A `temp-` id built from a time stamp is always routed to create |
| Kanban.ConfiguredStages | src/components/ui/recruitment/KanbanBoard.tsx:41-47 | The configuration lists five stages, in the order received, interview planned, interview completed, client waiting, recruited, with no repeats |
| Kanban.EveryStageConfigured | src/components/ui/recruitment/KanbanBoard.tsx:9-47 | Every value of the closed stage type has a column entry |
| Kanban.ByStage | src/components/ui/recruitment/KanbanBoard.tsx:49-51 | A bucket holds exactly the candidates on that stage, as an order-preserving subsequence of the input |
| Kanban.BucketMultiplicity | src/components/ui/recruitment/KanbanBoard.tsx:49-51 | A stage's bucket holds every copy of a candidate on that stage and none of any other |
| Kanban.Board | src/components/ui/recruitment/KanbanBoard.tsx:71-96 | One column per configured stage, in order, with its caption; each column's cards are its stage's bucket and its badge is the number of cards |
| Kanban.ColumnCards | src/components/ui/recruitment/KanbanBoard.tsx:92-96 | A column renders one card per candidate in its bucket |
| Kanban.DefaultCard | src/components/ui/recruitment/KanbanBoard.tsx:53-63 | A card shows the candidate's "first last" name and position and reports its id on a click; `CardClickNamesCandidate` ties each card to its bucket candidate |
| Kanban.CardClickNamesCandidate | src/components/ui/recruitment/KanbanBoard.tsx:57 | Clicking the j-th card of a column reports the id of the j-th candidate of that bucket, which is an input candidate |
| Kanban.OneBucketEach | src/components/ui/recruitment/KanbanBoard.tsx:49-51 | An input candidate is in a stage's bucket if and only if that stage is its own |
| Kanban.BucketsPartition | src/components/ui/recruitment/KanbanBoard.tsx:49-51 | The five buckets together are a permutation of the input (multiset equality) |
| Kanban.BoardPartition | src/components/ui/recruitment/KanbanBoard.tsx:71-96 | The board's cards, over all columns, are a permutation of the input, and the badges sum to the input length |
| Kanban.TwoCardExample | src/components/ui/recruitment/KanbanBoard.tsx:41-51 | A received and a recruited candidate land in the first and last column, and the three columns between them are empty |
| Candidates.StatusToStageTable | src/app/candidates/page.tsx:56-63 | The status table maps new, interview, offer, waiting, hired and rejected to their stages; any other key falls back to the received stage (the table taken as a plain map of its six entries) |
| Candidates.StatusToStage | src/app/candidates/page.tsx:56-89 | On the table taken as a plain map: Received exactly for `new` and keys outside the table, Interview Planned for `interview`, Interview Completed for `offer`, Client Waiting for `waiting`, Recruited for `hired` and `rejected` |
| Candidates.StageToStatus | src/app/candidates/page.tsx:119-125 | Every stage maps to a status that the status table knows, and never to `rejected` |
| Candidates.StageStatusRoundTrip | src/app/candidates/page.tsx:56-63 | Mapping a stage to its status and back gives the same stage, so the stage-to-status table is injective |
| Candidates.StatusStageRoundTrip | src/app/candidates/page.tsx:56-63 | Every mapped status other than `rejected` survives the trip to a stage and back |
| Candidates.ClientWaitingStatusUndeclared | src/app/candidates/page.tsx:119-128 | Only the Client Review stage maps to a status outside the declared status type |
| Candidates.FilterParams.With | src/app/candidates/page.tsx:98-103 | Changing one filter sets that filter and leaves the other two as they were |
| Candidates.ParseRating | src/app/candidates/page.tsx:71 | A rating filter value that parses gives a non-negative number |
| Candidates.RatingOptionsParse | src/app/candidates/page.tsx:408-414 | Each rating option "1" to "5" parses to its own number |
| Candidates.PassesIff | src/app/candidates/page.tsx:66-80 | A candidate passes if and only if the status, position and rating filters are each `all` or equal to its value, and the search is empty or a case-insensitive substring of "first last", position or email |
| Candidates.MatchesSearch | src/app/candidates/page.tsx:76-78 | An empty search matches every candidate; `PassesIff` gives the full name, position and email test |
| Candidates.RatingFilterSelects | src/app/candidates/page.tsx:70-73 | With only the rating filter set to k, exactly the candidates rated k pass |
| Candidates.Passes | src/app/candidates/page.tsx:66-80 | With the initial filters and no search every candidate passes; a set status filter passes only its status, and a set rating filter only rated candidates |
| Candidates.ListView | src/app/candidates/page.tsx:424-442 | The table holds each passing candidate as often as it is loaded and nothing else, and is empty when no list was fetched |
| Candidates.ListViewSelects | src/app/candidates/page.tsx:424-441 | The table shows exactly the loaded candidates that pass, in the loaded order; nothing when no list was fetched |
| Candidates.ListViewUnfiltered | src/app/candidates/page.tsx:31-35 | With the initial filters and no search the table shows every loaded candidate |
| Candidates.KanbanIsListWithoutRejected | src/app/candidates/page.tsx:65-94 | The Kanban list is the table's list without rejected candidates, in order; each card carries its candidate's id, names, position, tags and mapped stage |
| Candidates.ToKanban | src/app/candidates/page.tsx:84-94 | A card copies id, names, position, assignee and tags, is on the Recruited stage exactly for hired or rejected candidates, and is never on Client Waiting |
| Candidates.KanbanCandidates | src/app/candidates/page.tsx:65-94 | The Kanban list is the table's list without rejected candidates, each turned into its card, and no card is on Client Waiting |
| Candidates.KanbanNeverShowsRejected | src/app/candidates/page.tsx:82 | Every card comes from a non-rejected candidate that passes the filters; a rejected candidate with its own id never has a card |
| Candidates.ClientReviewColumnEmpty | src/app/candidates/page.tsx:56-63 | No card ever reaches the Client Review stage, so the fourth column is empty |
| Candidates.UniquePositions | src/app/candidates/page.tsx:48-50 | Each loaded position appears exactly once, and nothing else appears |
| Candidates.FindCandidate | src/app/candidates/page.tsx:108 | The lookup returns the first loaded candidate with that id, and returns none exactly when no loaded candidate has it |
| Candidates.BoardClickFindsCandidate | src/app/candidates/page.tsx:107-111 | Clicking a Kanban card always finds a loaded candidate, with that card's id |
| Candidates.SaveCall | src/app/candidates/page.tsx:138-146 | Save issues a create of the candidate when its id starts with `temp-`, and otherwise an update of that id with the candidate |
| Candidates.CandidatesPage.constructor | src/app/candidates/page.tsx:29-39 | The page opens with no search, every filter `all`, nothing selected and no calls made |
| Candidates.CandidatesPage.SetSearchTerm | src/app/candidates/page.tsx:330 | Typing sets the search term and changes nothing else; the table then holds exactly the loaded candidates that pass, and the board's cards are the Kanban list for the new term |
| Candidates.CandidatesPage.ChangeFilter | src/app/candidates/page.tsx:98-104 | A filter change updates the named filter only; the table then holds exactly the loaded candidates that pass the new filters, and the board's cards are their Kanban list |
| Candidates.CandidatesPage.ClickCandidate | src/app/candidates/page.tsx:107-111 | A click selects the first loaded candidate with that id, or nothing |
| Candidates.CandidatesPage.ChangeStage | src/app/candidates/page.tsx:114-135 | A stage change records one status update with the stage's mapped status |
| Candidates.CandidatesPage.SaveCandidate | src/app/candidates/page.tsx:138-152 | Saving records the create-or-update call that the id decides |
| Companies.PassesIff | src/app/companies/page.tsx:45-61 | A company passes if and only if the industry filter is `all` or its industry, and the search is empty or a case-insensitive substring of its name, industry or contact person |
| Companies.MatchesSearch | src/app/companies/page.tsx:52-54 | An empty search matches every company; `PassesIff` gives the name, industry and contact person test |
| Companies.Passes | src/app/companies/page.tsx:47-59 | With `all` and no search every company passes, and a set industry filter passes only that industry |
| Companies.FilteredCompanies | src/app/companies/page.tsx:45-61 | The filtered list holds each passing company as often as it is loaded and nothing else, and is empty when no list was fetched |
| Companies.FilteredCompaniesSelects | src/app/companies/page.tsx:45-61 | The filtered list is exactly the passing companies, as an order-preserving subsequence; with `all` and no search it is the whole list |
| Companies.UniqueIndustries | src/app/companies/page.tsx:40-42 | Each occurring industry appears exactly once, and nothing else appears |
| Companies.Dashboard | src/app/companies/page.tsx:253-295 | While loading there are no figures (the page shows `...`); otherwise Total is the list length, Open Positions the sum of the counts and Active Clients the number of companies with a positive count, Active Clients never exceeds Total or (with non-negative counts) Open Positions, and all three are zero when no list was fetched |
| Companies.OpenPositionsTotal | src/app/companies/page.tsx:274 | The sum of open positions is non-negative when every count is, and zero when every count is zero |
| Companies.OpenPositionsTotalAppend | src/app/companies/page.tsx:274 | The open-positions sum is additive over concatenation |
| Companies.ActiveClientsAtMostOpenPositions | src/app/companies/page.tsx:274-295 | With no negative count, the number of companies with open positions is at most the total of open positions, which is non-negative |
| Companies.FindCompany | src/app/companies/page.tsx:64-66 | The lookup returns the first loaded company with that id, and returns none exactly when no loaded company has it |
| Companies.SaveCall | src/app/companies/page.tsx:71-79 | Save issues a create when the id starts with `temp-`, and otherwise an update of that id |
| Companies.CompaniesPage.constructor | src/app/companies/page.tsx:21-25 | The page opens with no search, the industry filter `all`, nothing selected and no calls made |
| Companies.CompaniesPage.SetSearchTerm | src/app/companies/page.tsx:217 | Typing sets the search term and changes nothing else; the list then holds exactly the loaded companies that pass |
| Companies.CompaniesPage.SetIndustryFilter | src/app/companies/page.tsx:233 | Choosing an industry sets the filter and changes nothing else; the list then holds exactly the loaded companies that pass |
| Companies.CompaniesPage.ClickCompany | src/app/companies/page.tsx:64-68 | A click selects the first loaded company with that id, or nothing |
| Companies.CompaniesPage.SaveCompany | src/app/companies/page.tsx:71-85 | Saving records the create-or-update call that the id decides |
| CompanyForm.EmailPatternIff | src/components/companies/CompanyDetailModal.tsx:17 | The email pattern matches exactly the strings with no whitespace and one `@`, with a non-empty part before it, and a `.` after it that is neither the first nor the last character of the part after `@` |
| CompanyForm.EmailPattern | src/components/companies/CompanyDetailModal.tsx:17 | A matching address has at least five characters, an `@` and a `.` |
| CompanyForm.EmailCheck | src/components/companies/CompanyDetailModal.tsx:14-19 | The email rule accepts an empty value or a string of that shape, and otherwise reports "Invalid email address" |
| CompanyForm.ParsePhone | src/components/companies/CompanyDetailModal.tsx:26 | Whatever the phone recogniser accepts is the rendering of well-formed parts: optional `+`, optional `(`, 3 digits, optional `)`, optional separator, 3 digits, optional separator, 4 to 6 digits |
| CompanyForm.ParsePhoneComplete | src/components/companies/CompanyDetailModal.tsx:26 | The recogniser accepts the rendering of any well-formed parts and recovers those parts |
| CompanyForm.PhonePatternIff | src/components/companies/CompanyDetailModal.tsx:26 | The phone pattern matches a string if and only if it is the rendering of some well-formed parts |
| CompanyForm.PhoneLength | src/components/companies/CompanyDetailModal.tsx:26 | An accepted phone number has between 10 and 17 characters |
| CompanyForm.PhoneCheck | src/components/companies/CompanyDetailModal.tsx:22-28 | The phone rule accepts an empty value or a well-formed number, and otherwise reports "Invalid phone number" |
| CompanyForm.Check | src/components/companies/CompanyDetailModal.tsx:76-82 | On an empty value only a required rule fails; a required rule reports the field as missing, under its own label, and the format rules report it as invalid |
| CompanyForm.PhoneExampleParentheses | src/components/companies/CompanyDetailModal.tsx:26 | "(555) 123-4567" is accepted |
| CompanyForm.PhoneExamplePlus | src/components/companies/CompanyDetailModal.tsx:26 | "+555123456789" is accepted |
| CompanyForm.PhoneExampleTooShort | src/components/companies/CompanyDetailModal.tsx:26 | "555-1234" is rejected |
| CompanyForm.SetField | src/components/companies/CompanyDetailModal.tsx:84-89 | An edit sets one field and leaves the other eight unchanged |
| CompanyForm.FirstError | src/components/companies/CompanyDetailModal.tsx:76-82 | A field has no error exactly when every one of its rules accepts its value |
| CompanyForm.Rules | src/components/companies/CompanyDetailModal.tsx:76-82 | Name, industry, contact person and contact email are required, only the email has the email rule and only the phone the phone rule, and website, address, notes and office have no rule; `ErrorOfField` spells out each field |
| CompanyForm.Valid | src/components/companies/CompanyDetailModal.tsx:95 | A valid form has the four required fields filled in; `ValidIff` gives the whole condition, both directions |
| CompanyForm.ErrorOfField | src/components/companies/CompanyDetailModal.tsx:76-82 | For each field, it is valid if and only if its rules hold: required and non-empty, email-shaped, phone-shaped, or unconstrained |
| CompanyForm.ValidIff | src/components/companies/CompanyDetailModal.tsx:76-82 | The form is valid if and only if name, industry and contact person are non-empty, the contact email is non-empty and email-shaped, and the phone is empty or phone-shaped |
| CompanyForm.PhoneNotRequired | src/components/companies/CompanyDetailModal.tsx:81 | The phone is never reported missing, and an empty phone has no error |
| CompanyForm.Normalized | src/components/companies/CompanyDetailModal.tsx:56-61 | An optional that goes into the form and back is unchanged, except that a present empty string becomes absent |
| CompanyForm.InitialValues | src/components/companies/CompanyDetailModal.tsx:53-73 | The form takes a company's fields, with absent optionals as `''`; a new form is empty, with the user's office or `'1'` |
| CompanyForm.SubmittedRecord | src/components/companies/CompanyDetailModal.tsx:98-112 | The submitted record copies the form, drops every empty optional and keeps the others; for an existing company it keeps the id, creation date and open positions |
| CompanyForm.Submitted | src/components/companies/CompanyDetailModal.tsx:98-112 | The saved record routes to update exactly when the company being edited has a non-empty id that routes to update, and its update time is now |
| CompanyForm.NewCompanyDefaults | src/components/companies/CompanyDetailModal.tsx:99-111 | A new company gets a `temp-` id, which routes its save to create, no open positions, and a creation time of now |
| CompanyForm.InitSubmitRoundTrip | src/components/companies/CompanyDetailModal.tsx:98-111 | For an existing company, filling the form from it and submitting it unchanged gives back the same record, apart from `updatedAt` and empty optionals becoming absent |
| CompanyForm.SubmitInitRoundTrip | src/components/companies/CompanyDetailModal.tsx:53-62 | Reopening a submitted company fills the form with exactly the submitted values |
| CompanyForm.JobsOf | src/components/companies/CompanyDetailModal.tsx:349 | The jobs tab shows exactly the jobs of this company, in order and with every copy, and none when there is no company |
| CompanyForm.CompanyDetailModal.constructor | src/components/companies/CompanyDetailModal.tsx:50-89 | The page mounts the modal once, closed, on the Details tab, with the initial values of its company and no events; a create modal is on Details |
| CompanyForm.CompanyDetailModal.Open | src/app/companies/page.tsx:314-320 | Opening the mounted modal on a company keeps the tab chosen before and gives the form that company's initial values (the reload is assumed); nothing is emitted |
| CompanyForm.ReopenKeepsTab | src/components/companies/CompanyDetailModal.tsx:50-118 | Opening company A, choosing Jobs, cancelling and opening company B shows B on the Jobs tab |
| CompanyForm.CompanyDetailModal.SelectTab | src/components/companies/CompanyDetailModal.tsx:141-176 | A tab button of the open modal switches tab; the Jobs and Activity tabs do not exist while creating, so a create modal stays on Details |
| CompanyForm.CompanyDetailModal.Edit | src/components/companies/CompanyDetailModal.tsx:184-271 | Typing in an input updates that field only |
| CompanyForm.CompanyDetailModal.Submit | src/components/companies/CompanyDetailModal.tsx:92-116 | Only on the Details tab of the open modal: an invalid form emits nothing and stays open; a valid one saves the built company and then closes |
| CompanyForm.CompanyDetailModal.Cancel | src/components/companies/CompanyDetailModal.tsx:404-406 | Cancel closes without saving and leaves the tab and the form as they were |
| Assistant.Classify | src/app/ai-assistant/page.tsx:84-96 | The reply follows the first keyword group found in the lower-cased prompt, in order: email or message; interview and question; job with description or posting; feedback, candidate or summary; otherwise the fallback |
| Assistant.ClassifyIgnoresCase | src/app/ai-assistant/page.tsx:87 | Letter case does not affect which template is chosen |
| Assistant.FallbackWhenNoKeyword | src/app/ai-assistant/page.tsx:84 | A prompt with none of the keywords gets the fallback reply |
| Assistant.EmailButtonClassified | src/app/ai-assistant/page.tsx:205 | The Email Template button's prompt gets the email template |
| Assistant.QuestionsButtonClassified | src/app/ai-assistant/page.tsx:212 | The Interview Questions button's prompt gets the interview questions |
| Assistant.DescriptionButtonClassified | src/app/ai-assistant/page.tsx:219 | The Job Description button's prompt gets the job description |
| Assistant.FeedbackButtonClassified | src/app/ai-assistant/page.tsx:226 | The Feedback Template button's prompt gets the feedback summary |
| Assistant.QuickActionsClassified | src/app/ai-assistant/page.tsx:202-229 | Every quick action's prompt classifies to its namesake template |
| Assistant.QuickPrompt | src/app/ai-assistant/page.tsx:202-229 | The four quick-action prompts, literal for literal; `QuickActionsClassified` proves each reaches its own template |
| Assistant.ResponseText | src/app/ai-assistant/page.tsx:13-18 | Each template has a non-empty text; `Reply` proves the reply carries the text of the classified template |
| Assistant.LoadingCountUpdate | src/app/ai-assistant/page.tsx:98 | Overwriting one message changes the placeholder count by what leaves and what arrives |
| Assistant.FirstLoading | src/app/ai-assistant/page.tsx:80 | The first placeholder's index, or -1 exactly when there is none |
| Assistant.LoadingCountFound | src/app/ai-assistant/page.tsx:80-82 | A list holding a placeholder has a first one |
| Assistant.Reply | src/app/ai-assistant/page.tsx:98-103 | The reply is a non-loading assistant message holding the template chosen for the prompt |
| Assistant.AssistantPage.constructor | src/app/ai-assistant/page.tsx:30-39 | The chat opens with the greeting alone, an empty input, not loading and no pending reply |
| Assistant.AssistantPage.SetInput | src/app/ai-assistant/page.tsx:179 | Typing sets the input and changes nothing else |
| Assistant.AssistantPage.QuickAct | src/app/ai-assistant/page.tsx:202-229 | A quick-action button puts its prompt in the input and changes nothing else |
| Assistant.AssistantPage.SendEnabled | src/app/ai-assistant/page.tsx:187 | The send button is enabled exactly when nothing is loading and the input is not blank |
| Assistant.AssistantPage.Send | src/app/ai-assistant/page.tsx:47-71 | Blank input changes nothing; otherwise the user's message and then an empty loading placeholder are appended, the input is cleared, loading starts, and the placeholder invariant is kept |
| Assistant.AssistantPage.FindLoading | src/app/ai-assistant/page.tsx:80 | The scan returns the first placeholder's index, or -1 |
| Assistant.AssistantPage.Respond | src/app/ai-assistant/page.tsx:74-107 | Loading ends; the first placeholder, if any, is overwritten by the reply to that send's input, and nothing else changes; under the invariant a placeholder is always there |
| Text.Trim | src/app/ai-assistant/page.tsx:48 | `trim()` gives the empty string exactly when the input is all whitespace, and otherwise a string no longer than the input with no whitespace at either end |
| Text.IsSpace | src/app/ai-assistant/page.tsx:48 | JavaScript's white space set (ECMAScript WhiteSpace and LineTerminator); no digit or ASCII letter is white space, and `Trim` leaves none of these characters at either end |
| Text.Lower | src/app/ai-assistant/page.tsx:87 | Lower-casing keeps the length and lower-cases each character on its own |
| Text.Contains | src/app/ai-assistant/page.tsx:88 | Only a string no longer than the text can occur in it, and one of the same length only when it is the text |
| Seqs.Filter | src/components/ui/recruitment/KanbanBoard.tsx:50 | `filter` keeps exactly the elements that satisfy the predicate and never lengthens the list |
| Seqs.FilterCount | src/components/ui/recruitment/KanbanBoard.tsx:50 | `filter` keeps every copy of a kept element and no copy of a dropped one |
| Seqs.Find | src/app/candidates/page.tsx:108 | `find` gives none exactly when nothing satisfies the predicate, and otherwise the first element that does |
| Seqs.Distinct | src/app/candidates/page.tsx:48-50 | `Array.from(new Set(..))` holds the same values as its input, each once |

## Left out

- Rendering: JSX, theme colours, styling classes, animation, scrolling, and the modal visibility flags. The `Button` component is a table of styles and is not part of this model.
- The REST calls, `useApiQuery` and `refetch`. Loaded data is a parameter: `None` when no list has been fetched, `Some` once one has. The loading flag is a separate parameter, used only by `Companies.Dashboard`; the tables' loading spinner is display only. Create, update and status-update calls are recorded as events rather than performed, and failed calls (caught and logged) are not modelled.
- Office scoping by role. It only chooses an argument of the fetch, or shows the office selector to super administrators.
- `Date.now()`, `new Date()` and the 1500 ms timer. Ids, time stamps and the current time are parameters. The timer firing is the separate step `Respond`. Each send schedules one, and pending replies are kept in order.
- The Enter-key handler. It calls the same send routine and ignores the loading flag, so `Send` does not check the flag either. A Shift+Enter newline is ordinary typing.
- CompanyForm.CompanyDetailModal.Open: `useFormValidation` is not part of this model, so whether the form reloads its values when the `company` prop changes is not known. The model assumes it does; a hook that kept its first values would show the previous company's values on the next opening. The tab is kept across openings, as the source's `useState` does.
- `useFormValidation` is not part of this model. Its `required` rule is taken to reject exactly the empty string. `validate()` is taken to pass exactly when every rule of every field accepts, and errors are reported as the first failing rule of each field.
- Candidates.ParseRating: only all-digit strings are parsed. JavaScript's `parseInt` also accepts signs, leading blanks or trailing junk, which the fixed options "1" to "5" never contain.
- Companies.ActiveClientsAtMostOpenPositions: `Company.openPositions` and `Candidate.rating` are JavaScript numbers, modelled as integers (`src/types/index.ts:14`, `:31`). The bound, and the one in `Companies.Dashboard`, holds only for whole counts: a company with 0.5 open positions is an active client against an Open Positions total of 0.5. The NaN and infinity cases are not modelled either.
- Candidates.StatusToStage: the lookup table is an object literal, so in JavaScript it also answers to names inherited from `Object.prototype` (`constructor`, `toString`, …), which would yield something other than a stage. The model takes the table as a plain map of its six entries. The page looks up only declared status names, which are none of those.
- Text.Lower: lower-cases ASCII letters only. JavaScript's `toLowerCase` also maps other Unicode letters.
- Drag and drop: the board draws an empty drop indicator and never calls `onStageChange` itself, so no pending-move state exists. Only the stage-to-status mapping of a stage change is modelled.
- The Activity tab's fixed sample entries, the "View" button's console log, the status badge colours of the jobs table, the table column layouts and the star display of ratings. They are display only.
