# Sandbox dashboard: directory table and page orchestration

This project models the two pieces of logic in the Next.js sandbox
dashboard:

- **The employee directory table** (`src/app/components/EmployeeTable.tsx`).
  - `filterData` keeps the rows where some field, lower-cased, contains the lower-cased and trimmed search text.
  - `sortData` sorts a copy of the rows on one column, ascending or reversed, and then filters it.
  - `setSorting` is the column-header click rule. The component's `useState` slots become the fields of the class `Table.EmployeeTable`.
- **The dashboard page** (`src/app/page.tsx`).
  - It keeps a fixed registry of five sandbox providers and memoises one access token per provider.
  - It normalises the company, directory and employee-detail responses. A truthy field is kept; anything else becomes `null`.
  - Its handlers step through the page's state slots (`error`, `loading`, `providerCompany`, `providerDirectory`, `selectedEmployee`, `showModal`). These slots are the fields of the class `Page.Home`.

The network is an input. Each handler receives the already resolved response
of every request it may send:

- `Ok(res.data)` on success;
- `Failed(err.response.data.message)` on failure.

The handler appends the requests it actually sends to a `sent` log, so the
model can state which requests go out, in what order, and with which token.

A `TypeError` thrown inside a `.then` callback lands in that request's
`.catch`. Examples are `employee.department.name` with no department, and
`responses[0].body` of a null response. The model writes these as the
`Threw` case of `Json.Eval`, and the handler takes its error path for them.

Modules:

- `Wrappers`: `Option`.
- `Text`: ASCII `toLowerCase`, `trim`, `includes`, and a code-point `localeCompare`.
- `Table`: the directory table.
- `Json`: JavaScript values, truthiness, property reads and `x ? x : null`.
- `Normalize`: the company, directory-row and detail records.
- `Page`: the registry, the token memo, the request outcomes and the `Home` component.

The model keeps these behaviours of the code as they are:

- **The error is one `string | null` slot.** `fetchProviderDirectory` clears it on success. So after `updateSelectedProvider`, the directory outcome alone decides the slot, and any company error is overwritten (`Page.Home.UpdateSelectedProvider`).
- **A failed token fetch resolves to `undefined`.** The guard tests `!== null`, so it always passes. The company and directory requests are then sent with that `undefined` token, and "Error fetching provider token" is never shown. The branch that shows it is unreachable, and the model proves it so.
- **Company errors are classified three ways.**
  - The message "Not Implemented" gets the tailored error.
  - A missing message gets the generic company error.
  - Any other message sets no error at all.
- **Directory rows carry the department name only.** No manager name is looked up, and departments are not built into a tree.
- **The detail modal opens after every detail fetch**, whether it failed or not. `fetchEmployeeDetails` resolves to `undefined`, which is never `null`.

## Model

| member | source | states |
|---|---|---|
| Text.LowerChar | src/app/components/EmployeeTable.tsx:75 | an upper-case ASCII letter maps to its lower-case letter; every other character is unchanged |
| Text.Lower | src/app/components/EmployeeTable.tsx:75 | lower-casing keeps the length and lower-cases each character in place |
| Text.TrimStart | src/app/components/EmployeeTable.tsx:75 | the result is a suffix that does not start with white space; everything removed is white space |
| Text.TrimEnd | src/app/components/EmployeeTable.tsx:75 | the result is a prefix that does not end with white space; everything removed is white space |
| Text.Trim | src/app/components/EmployeeTable.tsx:75 | the trimmed query occurs inside the original text, everything before and after it is white space, and it neither starts nor ends with white space |
| Text.TrimBlank | src/app/components/EmployeeTable.tsx:75 | trimming leaves the empty string exactly when the text is all white space |
| Text.IncludesOccurs | src/app/components/EmployeeTable.tsx:77 | `includes` holds exactly when the query occurs at some position of the text |
| Text.Compare | src/app/components/EmployeeTable.tsx:94-97 | the comparison's sign is -1, 0 or 1, and it is 0 exactly for equal strings |
| Text.CompareAntisymmetric | src/app/components/EmployeeTable.tsx:93-97 | swapping the operands negates the comparison, so the reversed comparator is the mirror order |
| Text.LessEqTotal | src/app/components/EmployeeTable.tsx:92-98 | any two cells are ordered one way or the other |
| Text.LessEqTransitive | src/app/components/EmployeeTable.tsx:92-98 | the cell order is transitive |
| Table.Query | src/app/components/EmployeeTable.tsx:75 | the prepared query is empty exactly when the search text is all white space |
| Table.Matches | src/app/components/EmployeeTable.tsx:76-77 | a row matches exactly when some one of its fields, lower-cased, contains the query |
| Table.Filter | src/app/components/EmployeeTable.tsx:76-78 | filtering never lengthens the rows |
| Table.FilterCount | src/app/components/EmployeeTable.tsx:76-78 | each matching row keeps all its occurrences, and no non-matching row remains |
| Table.FilterData | src/app/components/EmployeeTable.tsx:74-79 | a row is in the result exactly when it is in the input and matches the prepared query; the result is never longer than the input |
| Table.FilterIsSubsequence | src/app/components/EmployeeTable.tsx:74-79 | `filterData` returns an order-preserving subsequence of its input |
| Table.FilterDataKeeps | src/app/components/EmployeeTable.tsx:74-79 | a row is in the result exactly when it is in the input and some field contains the lower-cased, trimmed search text; it is never longer than the input |
| Table.FilterEmptyQuery | src/app/components/EmployeeTable.tsx:76-78 | the empty query keeps every row, in order |
| Table.BlankSearchKeepsAll | src/app/components/EmployeeTable.tsx:74-79 | an empty or white-space-only search returns the input unchanged |
| Table.FilterIdempotent | src/app/components/EmployeeTable.tsx:76-78 | filtering twice with a query is filtering once |
| Table.FilterDataIdempotent | src/app/components/EmployeeTable.tsx:74-79 | `filterData` twice with the same search equals `filterData` once |
| Table.CmpMirror | src/app/components/EmployeeTable.tsx:92-98 | the reversed comparator is the ascending one negated, and the comparator is zero exactly for rows with equal cells |
| Table.CmpTransitive | src/app/components/EmployeeTable.tsx:92-98 | the sort comparator, in either direction, is transitive |
| Table.Insert | src/app/components/EmployeeTable.tsx:92-98 | inserting a row adds exactly that row to the rows |
| Table.InsertOrdered | src/app/components/EmployeeTable.tsx:92-98 | inserting into ordered rows keeps them ordered |
| Table.Sort | src/app/components/EmployeeTable.tsx:92-98 | sorting the copy rearranges the rows, adding and dropping none |
| Table.SortOrdered | src/app/components/EmployeeTable.tsx:92-98 | the sorted copy is ordered on the column, in the requested direction |
| Table.FilterOrdered | src/app/components/EmployeeTable.tsx:91-100 | filtering ordered rows keeps them ordered |
| Table.FilterPermutation | src/app/components/EmployeeTable.tsx:91-100 | filtering two rearrangements of the same rows gives rearrangements of the same rows |
| Table.SortData | src/app/components/EmployeeTable.tsx:81-101 | with no column it is `filterData` of the input; otherwise a rearrangement of `filterData(data, search)`, non-decreasing on the column, non-increasing when reversed |
| Table.Click | src/app/components/EmployeeTable.tsx:110-112 | the clicked column becomes the sort column; the direction flips if it already was, and is ascending otherwise |
| Table.ClickTwice | src/app/components/EmployeeTable.tsx:110 | clicking the current column twice restores its direction |
| Table.ClickNewColumn | src/app/components/EmployeeTable.tsx:110 | a new column sorts ascending on its first click and descending on its second |
| Table.EmployeeTable.constructor | src/app/components/EmployeeTable.tsx:104-107 | the first state: empty search, no sort column, ascending, the rows shown are the prop |
| Table.EmployeeTable.SetSorting | src/app/components/EmployeeTable.tsx:109-114 | the sort state follows the click rule, and the shown rows are recomputed from the prop under the new state |
| Table.ViewIsPermutation | src/app/components/EmployeeTable.tsx:104-114 | since the search is never set, the table always shows every row of the prop, rearranged |
| Json.OrNull | src/app/page.tsx:153-163 | `v ? v : null` keeps exactly the truthy values and makes everything else `null` |
| Json.OrNullToRaw | src/app/page.tsx:153-163 | applying the truthy-or-null rule to a stored field gives back the same field |
| Normalize.HasCompany | src/app/page.tsx:149 | a response carries a company only when `res.data` is an object with a truthy `id` property |
| Normalize.NormalizeCompany | src/app/page.tsx:149-164 | `id` is copied; every other field is the raw value when truthy and `null` otherwise; `entity` is `null` when absent, else its `type` and `subtype` are normalised one by one |
| Normalize.CompanyJsonReads | src/app/page.tsx:151-164 | writing a company record out as JSON and reading each property gives back each field |
| Normalize.NormalizeCompanyIdempotent | src/app/page.tsx:149-164 | a normalised company holds only `null` or truthy fields, and normalising it again changes nothing |
| Normalize.NormalizeEmployee | src/app/page.tsx:194-205 | a row's `id`, `key` and `value` are the employee id, and the other fields follow the truthy-or-null rule; it throws for a null employee or a missing department |
| Normalize.NormalizeRows | src/app/page.tsx:194-205 | the map gives one row per employee, in order, unless some employee throws |
| Normalize.DirectoryRows | src/app/page.tsx:193-205 | missing `individuals` gives no rows; a truthy non-array throws; an array gives its rows |
| Normalize.DetailOf | src/app/page.tsx:241-259 | the detail takes `id` from `individual_id`; every field follows the truthy-or-null rule, with `residence` normalised field by field |
| Normalize.NormalizeDetail | src/app/page.tsx:236-265 | no first response leaves the selection alone; otherwise the first response is normalised; a null `res.data`, response or body throws |
| Normalize.DetailUsesFirstResponseOnly | src/app/page.tsx:239-242 | responses after the first never change the detail |
| Page.TokenOf | src/app/page.tsx:104 | a provider's token is found exactly when the provider is registered, and it is the token of an entry with that value |
| Page.TokenOfFirst | src/app/page.tsx:104 | the token found is the token of the first entry with that value |
| Page.StoreToken | src/app/page.tsx:119-125 | storing keeps the entries, values and labels, and replaces the token of exactly the entries of that provider |
| Page.StoreThenRead | src/app/page.tsx:119-127 | after storing, the provider yields the stored token |
| Page.StoreKeepsOthers | src/app/page.tsx:119-125 | storing a token for one provider leaves every other provider's token unchanged |
| Page.IssuedToken | src/app/page.tsx:118 | a create response issues a token exactly when `res.data` and its `access_token` are truthy, and that token is `access_token` |
| Page.FetchToken | src/app/page.tsx:102-136 | a truthy stored token is returned and nothing changes; an issued token is stored for the provider and returned; otherwise nothing is stored and the result is `undefined`, never `null` |
| Page.StoreKeepsMemoized | src/app/page.tsx:118-121 | storing a usable token keeps every stored token `undefined` or usable |
| Page.FetchTokenKeeps | src/app/page.tsx:119-126 | a token fetch keeps the list's order, values and labels, and no other provider's token changes |
| Page.FetchTokenValid | src/app/page.tsx:102-136 | a token fetch keeps the five-entry registry and the selected provider registered |
| Page.TokenRequests | src/app/page.tsx:104-116 | the token fetch sends no request exactly when a truthy token is stored, and otherwise sends one create request for the provider with the four products |
| Page.TokenMemoized | src/app/page.tsx:132-135 | once a fetch yields a token, a later fetch for that provider sends no request and returns the same token |
| Page.RegistryLookups | src/app/page.tsx:73-94 | the initial registry holds "gusto" and "workday" with no token |
| Page.TokenExample | src/app/page.tsx:118-127 | an issued "tok1" for "gusto" is returned and stored for "gusto" only |
| Page.CompanyExample | src/app/page.tsx:149-175 | the company `{id, legal_name}` loads with a `null` `ein`; "Not Implemented" is the unsupported-company case |
| Page.DirectoryExample | src/app/page.tsx:192-206 | one active employee with a department gives exactly one row |
| Page.CompanyOutcomeOf | src/app/page.tsx:148-181 | it classifies a company response as: loaded (truthy `id`), no company, "Not Implemented", no message, or another message |
| Page.DirectoryOutcomeOf | src/app/page.tsx:191-212 | the directory fails exactly on a request error or a thrown row; falsy `res.data` lists nothing; otherwise it lists the normalised rows |
| Page.DetailOutcomeOf | src/app/page.tsx:236-270 | the detail fails exactly on a request error or a thrown read; otherwise the first response is selected, if there is one |
| Page.CompanyAfter | src/app/page.tsx:165-175 | a loaded company is stored, "Not Implemented" clears the company, and every other outcome keeps it |
| Page.ErrorAfterCompany | src/app/page.tsx:172-179 | "Not Implemented" sets the tailored error, an error without a message sets the generic one, and every other outcome keeps the slot |
| Page.DirectoryAfter | src/app/page.tsx:192-207 | listed rows replace the directory; every other outcome keeps it |
| Page.ErrorAfterDirectory | src/app/page.tsx:208-211 | the error slot is cleared exactly when the directory request did not fail, and holds the directory error otherwise |
| Page.EmployeeAfter | src/app/page.tsx:239-265 | a selected detail replaces the selected employee; every other outcome keeps it |
| Page.ErrorAfterDetail | src/app/page.tsx:267-270 | a failed detail request sets the detail error; every other outcome keeps the slot |
| Page.CompanySlots | src/app/page.tsx:148-181 | read off the response: a company with `id` is stored and the error kept; "Not Implemented" clears the company and sets the tailored error; no message sets the generic error; any other message changes neither slot |
| Page.DirectorySlots | src/app/page.tsx:191-212 | read off the response: a failure keeps the directory and sets the error; missing `individuals` gives an empty directory and clears the error; falsy `res.data` keeps the directory and clears the error |
| Page.DetailSlots | src/app/page.tsx:236-270 | read off the response: missing `responses` change neither slot; a failure keeps the employee and sets the error |
| Page.Home.constructor | src/app/page.tsx:71-99 | the first render: nothing selected, loaded or failed, the five providers without tokens, the modal closed |
| Page.Home.FetchProviderToken | src/app/page.tsx:102-136 | it returns and stores what `FetchToken` gives and is never `null`; it sends the create request only when no truthy token is stored; nothing else changes |
| Page.Home.FetchProviderCompany | src/app/page.tsx:138-182 | it sends the company request; loading stays on only after a success without `id`; a success stores the company; "Not Implemented" sets the tailored error and clears the company; no message sets the generic error; any other message leaves the error slot |
| Page.Home.FetchProviderDirectory | src/app/page.tsx:184-213 | it sends the directory request; a success stores the rows, if any, and clears the error; a failure sets the directory error and keeps the previous directory |
| Page.Home.FetchEmployeeDetails | src/app/page.tsx:215-273 | it sends one request with exactly one `individual_id`; the first response becomes the selected employee; a failure sets the detail error; it resolves to `undefined` |
| Page.Home.UpdateSelectedProvider | src/app/page.tsx:275-284 | it records the selection, fetches the token, then always sends the company request and then the directory request with that token; the directory outcome alone decides the error slot |
| Page.Home.SelectEmployee | src/app/page.tsx:286-301 | without a provider and an employee id, it sets the detail error and sends nothing; otherwise it fetches the token and the detail, and always opens the modal |
| Page.Home.CloseModal | src/app/page.tsx:307-309 | closing the modal changes nothing but `showModal` |

## Left out

- **HTTP.** The HTTP calls (axios) and the proxy rewrites of `next.config.js` are left out; responses are inputs and requests are log entries. `next.config.js` is not part of this model.
- **React.** State batching, stale closures and requests still in flight after a provider switch are left out; handlers run one after another to completion.
- **Re-rendering.** A re-render of the table with a new `data` prop is left out. `useState(data)` keeps the first rows until the next click, and `Table.EmployeeTable` fixes `data` at construction.
- **Page layout.** Rendering, styling, the provider picker, the company and location views, the modal body and `console.log` are left out.
- Text.Compare: it uses lexicographic code-point order, not the locale collation of `localeCompare`; only the sign of the comparison is kept.
- Text.Lower: it folds ASCII letters only; Unicode case mapping is not modelled.
- Text.Trim: it removes the white space characters listed in `Text.IsSpace`; other Unicode space separators are not modelled.
- **Row fields.** Every field of a table row is text. `toString()` on a `null` field and `localeCompare` on a non-string field throw in the source; these are not modelled.
- **Sortable columns.** `Table.EmployeeTable.SetSorting` accepts any of the eight columns. The table header offers only first name, last name, department and status; the other columns are a harmless generalisation.
- Table.Sort: JavaScript's sort order among equal cells is modelled as a stable insertion sort; stability itself is not stated as a property.
- **Numbers.** JSON numbers are integers, so `NaN` and fractions are not modelled. Only arrays and strings have a `length`.
- **The error message.** The message is read as an optional string; a truthy non-string `message` is not modelled.
- Page.Home.FetchProviderToken: it requires the provider to be registered. In the source, an unknown id makes `[0].token` throw outside the `try`, which ends the handler with an unhandled rejection. The page only offers registered providers.
- Page.Home.UpdateSelectedProvider: the "Error fetching provider token" branch is unreachable. The model proves it unreachable instead of modelling it.
- **The registry.** The source mutates the provider objects of the registry array in place before `setSandboxProviders`. The model reassigns the `sandboxProviders` sequence; aliasing of those objects is not modelled.
