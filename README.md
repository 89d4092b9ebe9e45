# Support-email triage assistant, modelled in Dafny

The repository is a small support-email assistant (`code.py`). It loads a
table of emails (sender, subject, body). For every email it does three things:

- It gives the email a priority: High, Medium or Low.
- It gives the email a category: Login/Account, Billing/Pricing, Integration,
  System Downtime or General Inquiry.
- It asks a text-generation service for a draft reply. If anything about that
  call goes wrong, it uses a fixed fallback reply.

The enriched table is then sorted for a dashboard, High rows first, then
Medium, then Low.

The model follows the program's own structure.

- `text.dfy` (module `Text`): the two string operations the classifiers use.
  - `Lower` is Python's `str.lower` restricted to ASCII.
  - `Contains` is Python's `k in text`: plain substring containment, not word
    matching. So "supporter" mentions "support" and "rapid" mentions "api".
- `classifier.dfy` (module `Classifier`): `_get_priority` and
  `_categorize_email` as functions of the subject and body, with their
  precedence rules as contracts.
  - It proves that the keywords of the joined text are those of its two parts.
  - It proves that both classifiers are case-insensitive.
- `responder.dfy` (module `Responder`): the fallback logic of `_get_ai_response`.
  - What the service did is a value (`HttpOutcome`).
  - The reply is a total function of it.
  - The prompt format and the request sent are modelled too.
- `pipeline.dfy` (module `Pipeline`): `process_emails`.
  - The class `EmailAssistant` owns the table (`df`).
  - Its method `ProcessEmails` fills the priority, category and response
    columns in place, one column pass after the other (`Apply`, the row-wise
    `df.apply`), one service call per row in row order.
  - The service is a parameter `gen`: it maps the call number and the request
    to an outcome.
- `dashboard.dfy` (module `Dashboard`): the sort in `main`.
  - It is an in-place three-way partition of an array of rows, keyed by the
    rank High < Medium < Low.
  - It is proved to sort and to permute the rows.
  - It also proves that the resulting priority column is unique.
  - `RunAssistant` is `main` without the loading and the printing, including
    its failure on an empty table; `ShowDashboard` is the corrected dashboard
    step.
- `scenarios.dfy` (module `Scenarios`): the classifiers on concrete emails,
  and the dashboard order of three rows.
- `wrappers.dfy` (module `Wrappers`): `Option` and `Result`.

## Model

| member | source | states |
|---|---|---|
| Text.LowerChar | code.py:37 | only 'A'..'Z' change, each to its lower-case letter (code point + 32); the result is never upper-case |
| Text.Lower | code.py:37 | `.lower()` keeps the length and lower-cases each character in place |
| Text.LowerAppend | code.py:37 | lower-casing `subject + ' ' + body` is lower-casing each part and joining them |
| Text.LowerIdempotent | code.py:37 | lower-casing already lower-cased text changes nothing |
| Text.Contains | code.py:38 | Python's `keyword in text` holds exactly when the keyword occurs at some position of the text |
| Text.ContainsAcrossSpace | code.py:37-38 | a keyword without a space occurs in `a + ' ' + b` iff it occurs in `a` or in `b` |
| Classifier.AnyKeyword | code.py:38 | `any(keyword in text for keyword in keywords)` holds iff some keyword of the list occurs in the text |
| Classifier.PriorityOf | code.py:23-42 | High iff a High keyword occurs in the lower-cased joined text, whatever else occurs; Medium iff no High keyword and some Medium keyword occurs; Low iff neither; total on every input, the empty strings included |
| Classifier.CategoryOf | code.py:44-64 | the first keyword group with a hit decides, in the order Login/Account, Billing/Pricing, Integration, System Downtime; General Inquiry iff none of the twelve category keywords occurs |
| Classifier.KeywordsHaveNoSpace | code.py:34-63 | no keyword of either classifier contains a space |
| Classifier.MentionsSplit | code.py:37 | a group of keywords without spaces is mentioned by the joined text iff it is mentioned by the lower-cased subject or the lower-cased body |
| Classifier.PriorityFromParts | code.py:37-42 | the priority read off the lower-cased subject and body separately is the priority of the joined text |
| Classifier.CategoryFromParts | code.py:55-64 | the category read off the lower-cased subject and body separately is the category of the joined text |
| Classifier.CaseInsensitive | code.py:37 | two emails whose subjects and bodies agree up to letter case get the same priority and the same category |
| Classifier.LowerCasedInput | code.py:55 | classifying the lower-cased subject and body gives the same priority and category as the original |
| Responder.Prompt | code.py:138 | the prompt is the fixed lead text, then the sender, then " regarding '", then the subject, then "':", in that order and nothing else |
| Responder.RequestFor | code.py:80-91 | the request carries the prompt and the context, the fixed system instruction, and asks for search grounding |
| Responder.FirstCandidateText | code.py:107 | `candidates[0].content.parts[0].text` exists iff every key on that path is present and both lists are non-empty, and then the result is that text |
| Responder.ResponseFor | code.py:78-113 | no connection, an error status (400..599), a body that is not JSON, or a missing key or empty list on the text path each give exactly the fallback reply; otherwise the reply is the extracted text |
| Responder.ResponseIsFallbackOrGenerated | code.py:78-113 | every reply is the fallback or the text of the first part of the first candidate of a reply that passed the status check |
| Responder.EmptyReplyComesFromService | code.py:107-113 | an empty reply can only come from the service producing empty text, since the fallback is not empty |
| Pipeline.GenerateResponse | code.py:66-113 | `_get_ai_response(prompt, context)` as one service call: the fallback reply when the call fails in any way, otherwise exactly the text the service generated |
| Pipeline.Enrich | code.py:128-142 | the three `apply` passes: one derived entry per row, whose priority and category are the classifiers of that row's subject and body and whose reply is the answer to the row's own prompt and body |
| Pipeline.Processed | code.py:124-144 | an empty table is returned unchanged; a non-empty one keeps its rows, in order, and gains one derived entry per row |
| Pipeline.EnrichAt | code.py:128-142 | row i's priority and category are the classifiers applied to row i's subject and body, and its reply is the service's answer to the i-th request, which carries row i's prompt and body |
| Pipeline.RowsClassifiedIndependently | code.py:128-135 | a row's priority and category depend only on its own subject and body: not on its sender, its position, the other rows or the service |
| Pipeline.ServiceDownGivesFallback | code.py:136-142 | when every service call fails, every row's reply is the fallback, and the classification is the same as with any other service |
| Pipeline.Apply | code.py:128-142 | `df.apply(f, axis=1)` gives every row, in row order, the value `f` computes from that row (and its position, the number of the service call it makes) |
| Pipeline.EmailAssistant.constructor | code.py:13-21 | the assistant starts from the loaded table, without derived columns |
| Pipeline.EmailAssistant.ProcessEmails | code.py:116-144 | the table after the call, which is also the returned table, is the processed table: unchanged when empty, otherwise the same rows with the three derived columns |
| Dashboard.Rank | code.py:162 | the fixed dashboard order: High ranks first, Low last, Medium between |
| Dashboard.SortByPriority | code.py:164 | the in-place sort leaves the rows ordered by rank and is a permutation of them |
| Dashboard.ShowDashboard | code.py:161-164 | the corrected dashboard step: the rows are ordered by rank and are exactly the rows of the processed table, none when it has no priority column |
| Dashboard.RunAssistant | code.py:147-164 | `main`: it fails with the missing `priority` column exactly when the loaded table is empty; otherwise it shows the processed rows, ordered by rank |
| Dashboard.SortedPriorityColumnUnique | code.py:161-164 | any two rank-ordered rearrangements of the same rows have the same priority column, so the sort's treatment of ties cannot change it |
| Dashboard.DashboardInputComplete | code.py:116-144 | every loaded row reaches the dashboard, with its derived columns, in table order; an empty table gives no rows |
| Dashboard.DashboardInputAsWritten | code.py:162 | as written, the priority column lookup fails exactly when the processed table has no derived columns |
| Dashboard.EmptyTableHasNoPriorityColumn | code.py:124-126 | for an empty loaded table, the priority column lookup fails |
| Dashboard.DashboardInput | code.py:161-164 | the corrected dashboard input: no rows when there are no derived columns, otherwise the processed rows |
| Scenarios.UrgentServersEmail | code.py:23-64 | "Urgent" / "servers" is High and System Downtime |
| Scenarios.RefundHelpEmail | code.py:23-64 | "Refund" / "help" is Medium and Billing/Pricing |
| Scenarios.HelloThanksEmail | code.py:23-64 | "Hello" / "Thanks" is Low and General Inquiry |
| Scenarios.RapidSupporterEmail | code.py:23-64 | "Rapid" / "Supporter" is Medium and Integration, by substring matches inside longer words |
| Scenarios.EmptyEmail | code.py:23-64 | an empty subject and body give Low and General Inquiry |
| Scenarios.ThreeRowDashboard | code.py:161-164 | rows of priorities Medium, High, Low are shown as High, Medium, Low |

## Left out

- Loading the CSV file, and the empty table used when loading fails (code.py:13-21): the constructor takes the loaded rows as given, and they may be empty.
- The HTTP request itself, the JSON encoding of the payload, the API URL and key: the service is a parameter `gen` that returns an `HttpOutcome`. `raise_for_status` is modelled only as the status range 400..599.
- Any promise that a successful reply is non-empty: the code returns whatever text the service gives.
- Console output and the markdown rendering of the dashboard (code.py:20, 112, 125, 155-167): presentation only.
- Python's full Unicode `str.lower`: only ASCII letters are lower-cased.
- Non-string cells such as missing values, and a table without a `sender`, `subject` or `body` column: rows are records of three strings.
- Columns of the loaded table other than sender, subject and body. The model assumes the loaded table has no `priority`, `category` or `response` column. Other extra columns are carried unchanged and play no part in the logic. If the table has one of those three columns, code.py:128-142 overwrites it in a non-empty table. In an empty table, a loaded `priority` column makes the lookup at code.py:162 succeed instead of raising `KeyError`.
- Timeouts and retries: the code has none.
- Dashboard.SortByPriority: it does not keep rows of equal priority in their original order. `sort_values` with its default `kind='quicksort'` is not a stable sort either, so the code is followed, and `SortedPriorityColumnUnique` shows that the sorted priority column does not depend on it.
- Dashboard.ShowDashboard: it models the corrected dashboard step, which shows no rows for a table without a priority column where code.py:162 raises `KeyError`; `RunAssistant` keeps the code's failure.
- Responder.FirstCandidateText: a `text` key that is present but holds JSON null or a non-string value is returned unchanged by code.py:107-109, without the fallback; the model's reply is a string, so it treats such a value like a missing key and gives the fallback. A top-level reply that is not a JSON object is likewise folded into the not-JSON case.
- Pipeline.EmailAssistant.ProcessEmails: the derived columns are kept as a separate column group rather than as pandas columns next to the loaded ones, and a second call recomputes them.

## Findings

| source | as written | input that shows it | evidently intended | confidence | as-written member | corrected member |
|---|---|---|---|---|---|---|
| code.py:161-164 | `process_emails` returns an empty table early, without the `priority` column, and `main` then reads `processed_df['priority']`, which raises `KeyError` | a loaded table with no rows and no `priority` column | an empty dashboard | not executed | Dashboard.EmptyTableHasNoPriorityColumn | Dashboard.DashboardInput |
