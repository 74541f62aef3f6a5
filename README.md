# Ingestion-task admin dashboard: mock service, form schema and theme store

This project models the parts of the dashboard that contain logic:

- the **mock task service** (`src/services/userService.ts`). Despite the "user" naming, it stores
  ingestion-task records (`id`, `name`, `sql_query`, `injest_type`, `enabled`, `created_timestamp`)
  as one whole collection in browser storage. The collection is seeded with five fixture records.
  The service offers a filtered list query, a lookup by id, and create, update and delete;
- the **form schema** (`src/validations/userValidation.ts`) that a task must pass before the pages
  submit it;
- the **theme store** (`src/store/themeStore.ts`): a light/dark toggle persisted under `theme-mode`.

Layout, one module per concept:

- `options.dfy`: `Option`.
- `seqs.dfy`: `Select`, which is `Array.prototype.filter`, and its laws. The list query, delete and
  the schema all use it.
- `text.dfy`: `toLowerCase` and `includes`.
- `tasks.dfy`: the record, the submitted form, and the object spreads used by create and update.
- `filter.dfy`: the `UserFilters` object and the list query's per-record predicate.
- `schema.dfy`: the form schema.
- `service.dfy`: the fixtures, and the `TaskStore` class whose single field stands for the
  `users` storage entry. Its methods are the service calls. Each is specified against the pure
  functions beside it.
- `theme.dfy`: the theme store as a class with the in-memory mode and the persisted entry.

Where the code and the written design disagree, the model follows the code:

- Seeding. The code reseeds only when the storage key is absent (`!users`). A collection emptied by
  deletes is stored as `[]` and is returned as it is; it is not reseeded.
- Dates. JavaScript's Invalid Date compares false with everything. So a record timestamp that does
  not parse is never rejected by the date range (`TaskFilter.UnparsedDatePasses`). A `date_from` or
  `date_to` bound that does not parse rejects nothing either (`TaskFilter.UnparsedBoundsPass`).
- Validation. The service itself never validates; only the form does. Stored records satisfy the
  schema only because the fixtures do (`TaskService.FixturesValid`) and the pages submit validated
  forms.
- Identity. The record shape declared in `src/types/User.ts` (`email`, `role`, ...) is stale. The
  model uses the fields the service and the schema actually read.

## Model

| member | source | states |
|---|---|---|
| `Seqs.Select` | src/services/userService.ts:98-132 | `filter` returns no more elements than it was given, and each one satisfies the callback |
| `Seqs.SelectIsSubsequence` | src/services/userService.ts:98-132 | the filtered list is an order-preserving subsequence of the input |
| `Seqs.SelectMembership` | src/services/userService.ts:98-132 | an element is in the result exactly when it is in the input and the callback accepts it |
| `Seqs.SelectConcat` | src/services/userService.ts:98-132 | filtering distributes over concatenation, so kept records stay in stored order |
| `Seqs.SelectKeepsAll` | src/services/userService.ts:195-197 | nothing is removed, and the length is unchanged, exactly when every element passes |
| `Seqs.SelectIdempotent` | src/services/userService.ts:98-132 | filtering an already filtered list changes nothing |
| `Text.Lower` | src/services/userService.ts:100 | lower-casing keeps the length and maps each character by the ASCII case rule |
| `Text.Contains` | src/services/userService.ts:100 | definition of `includes`: a prefix occurrence makes it true, and a match needs a needle no longer than the haystack; laws in `Text.ContainsIffOccurs` |
| `Text.ContainsIffOccurs` | src/services/userService.ts:100 | `includes` is true exactly when the needle occurs at some position of the haystack |
| `Text.LowerIdempotent` | src/services/userService.ts:100 | lower-casing twice is lower-casing once |
| `Text.LowerKeepsOccurrence` | src/services/userService.ts:100 | an occurrence survives lower-casing both strings, at the same position |
| `Tasks.WithId` | src/services/userService.ts:157-160 | definition of `{...data, id}`: the record has the given id and exactly the form's fields; laws in `Tasks.WithIdRoundTrip` |
| `Tasks.Merge` | src/services/userService.ts:179-182 | definition of `{...record, ...data}`: the id is kept and an empty patch changes nothing; laws in `Tasks.MergeLaw` |
| `Tasks.WithIdRoundTrip` | src/services/userService.ts:157-160 | `{...data, id}` carries the form data unchanged plus the id, and a record is its form plus its id |
| `Tasks.MergeLaw` | src/services/userService.ts:179-182 | `{...record, ...data}` keeps the id and every field `data` lacks, and takes every field `data` has |
| `Tasks.MergeFullAndEmpty` | src/services/userService.ts:179-182 | spreading a whole form replaces all but the id; an empty spread changes nothing |
| `Tasks.MergeIdempotent` | src/services/userService.ts:179-182 | applying the same update twice is applying it once |
| `TaskFilter.NameOk` | src/services/userService.ts:100 | the case-insensitive name check; a name that starts with the filter text, ignoring case, passes; laws in `TaskFilter.NameSubstringMatches` |
| `TaskFilter.TypeOk` | src/services/userService.ts:105 | the exact `injest_type` check; a filter equal to the record's own type passes |
| `TaskFilter.EnabledOk` | src/services/userService.ts:110 | the three-valued `enabled` check; a defined filter opposite to the record's flag rejects it |
| `TaskFilter.DateOk` | src/services/userService.ts:115-129 | the date range check; with neither bound set it accepts every record; laws in `TaskFilter.DateRangeInclusive` |
| `TaskFilter.Keep` | src/services/userService.ts:98-132 | the `filter` callback, the conjunction of the four checks; the empty filter object keeps every record, and an opposite `enabled` drops it; laws in `TaskFilter.FilteredIsOrderedSelection` |
| `TaskFilter.ApplyFilters` | src/services/userService.ts:92-135 | with no filter object the stored list is returned as is; with one, every returned record passes every present filter |
| `TaskFilter.FilteredIsOrderedSelection` | src/services/userService.ts:97-133 | the result is an ordered subsequence of the store; a record is kept exactly when name, type, enabled and date checks all accept it |
| `TaskFilter.EmptyFiltersKeepAll` | src/services/userService.ts:100-115 | empty-string or absent text filters and an undefined `enabled` constrain nothing, so `{}` returns the whole store |
| `TaskFilter.EmptyObjectKeepsAll` | src/services/userService.ts:97-135 | `fetchUsers({})` returns the stored collection unchanged, in stored order |
| `TaskFilter.FilterIdempotent` | src/services/userService.ts:92-135 | re-running a query over its own result returns the same list |
| `TaskFilter.NameSubstringMatches` | src/services/userService.ts:100 | a name that contains the filter text verbatim passes the case-insensitive name filter |
| `TaskFilter.DateRangeInclusive` | src/services/userService.ts:115-129 | when all dates parse, a record passes exactly when `from <= created <= endOfDay(to)`; a record created at the `to` instant is kept |
| `TaskFilter.UnparsedDatePasses` | src/services/userService.ts:116-127 | a timestamp that does not parse is never rejected by the date range |
| `TaskFilter.UnparsedBoundsPass` | src/services/userService.ts:118-127 | a `date_from` or `date_to` bound that does not parse rejects no record |
| `TaskSchema.FieldValid` | src/validations/userValidation.ts:4-8 | the rule of one field: every field is required, and a valid ingest type is one of the four values; laws in `TaskSchema.ValidFormRules` |
| `TaskSchema.Validate` | src/validations/userValidation.ts:3-9 | a form is accepted exactly when every field rule holds, and the accepted form has the submitted values; otherwise the failing fields are listed, and only those |
| `TaskSchema.ValidFormRules` | src/validations/userValidation.ts:4-8 | a typed form is valid exactly when its name has at least 2 characters, its query and timestamp are non-empty and its type is batch, streaming, incremental or full |
| `TaskService.FirstIndex` | src/services/userService.ts:173 | `findIndex` by id: absent exactly when no record has the id; otherwise the first position holding it |
| `TaskService.FindById` | src/services/userService.ts:139-149 | the lookup fails with not-found naming the id exactly when no record has it; otherwise it returns the first stored record with that id |
| `TaskService.RemoveId` | src/services/userService.ts:195 | definition of the delete filter: no longer than the input, and no remaining record has the id; laws in `TaskService.RemoveIdSpec` |
| `TaskService.RemoveIdSpec` | src/services/userService.ts:195-197 | delete keeps, in order, exactly the records with another id; the list is shorter exactly when the id was present |
| `TaskService.RemoveIdKeepsUnique` | src/services/userService.ts:195 | removing records keeps ids unique |
| `TaskService.DeleteThenFindFails` | src/services/userService.ts:195-201 | after a delete, looking up the id fails with not-found |
| `TaskService.CreateThenFind` | src/services/userService.ts:157-163 | a record appended under a fresh id is found by that id, equal to the form plus the id |
| `TaskService.AppendKeepsUnique` | src/services/userService.ts:157-163 | appending under a fresh id keeps ids unique |
| `TaskService.UpdateKeepsIds` | src/services/userService.ts:179-184 | replacing a record by its merge keeps every id in place |
| `TaskService.UpdateThenFind` | src/services/userService.ts:173-184 | after an update, looking up the id returns the merged record |
| `TaskService.FixtureIds` | src/services/userService.ts:5-46 | the fixtures are five records with ids "1" to "5", none repeated |
| `TaskService.FixturesValid` | src/services/userService.ts:5-46 | every fixture record passes the form schema |
| `TaskService.TaskStore.Collection` | src/services/userService.ts:67-75 | what the next load returns: the stored collection, or, when none is stored, five records with distinct ids |
| `TaskService.TaskStore.constructor` | src/services/userService.ts:62-64 | in development mode the fixtures overwrite the stored collection at start-up; otherwise storage is left as found |
| `TaskService.TaskStore.ResetMockData` | src/services/userService.ts:55-58 | the stored collection becomes the fixtures |
| `TaskService.TaskStore.Load` | src/services/userService.ts:67-75 | returns the stored collection; when there is none, returns the fixtures and stores them |
| `TaskService.TaskStore.Save` | src/services/userService.ts:78-80 | replaces the whole stored collection |
| `TaskService.TaskStore.FetchTasks` | src/services/userService.ts:92-136 | returns the filtered collection; storage changes only by seeding |
| `TaskService.TaskStore.FetchTaskById` | src/services/userService.ts:139-149 | returns the lookup result on the loaded collection; storage changes only by seeding |
| `TaskService.TaskStore.CreateTask` | src/services/userService.ts:152-166 | the store grows by one record at the end, the form plus the fresh id; earlier records are unchanged and ids stay unique |
| `TaskService.TaskStore.UpdateTask` | src/services/userService.ts:169-188 | not-found, with nothing written, exactly when the id is absent; otherwise only the first matching record is replaced by its merge, and all ids stay in place |
| `TaskService.TaskStore.DeleteTask` | src/services/userService.ts:191-202 | not-found, with nothing written, exactly when the id is absent; otherwise the records with that id are removed and the rest kept in order; ids stay unique |
| `ThemeStore.InitialMode` | src/store/themeStore.ts:8-11 | definition of `getInitialMode`: a stored "light" or "dark" is read back as that mode, and no stored value gives light; laws in `ThemeStore.InitialModeSpec` |
| `ThemeStore.Toggled` | src/store/themeStore.ts:16 | the toggle always changes the mode; laws in `ThemeStore.ToggleInvolution` |
| `ThemeStore.InitialModeSpec` | src/store/themeStore.ts:8-11 | the initial mode is dark exactly when the stored value is "dark"; no stored value gives light |
| `ThemeStore.InitialModeRestores` | src/store/themeStore.ts:8-18 | a persisted mode is read back as itself |
| `ThemeStore.ToggleInvolution` | src/store/themeStore.ts:16 | a toggle always changes the mode, and two toggles restore it |
| `ThemeStore.ThemeState.constructor` | src/store/themeStore.ts:14 | the store starts in the mode read from storage |
| `ThemeStore.ThemeState.ToggleMode` | src/store/themeStore.ts:15-19 | the mode flips, the new mode is persisted, and a fresh start would read back the new mode |

## Left out

- Simulated latency (`delay`, `randomDelay`, `Math.random`) and `async`: every call is synchronous.
- Browser storage and JSON encoding. The `users` entry is an `Option<seq<Task>>` field. The
  `theme-mode` entry is an `Option<string>` field. A `JSON.parse` failure is not handled by the
  code and is not modelled.
- The `console.log` after a reset. The wording of the not-found error message: the model's error
  carries only the id.
- The fixtures are immutable in the model. In the source, when storage is empty `getUsersFromStorage`
  returns the module's `mockUsers` array itself. A create or update in that same call then also
  pushes into, or overwrites an element of, that in-memory array. Nothing reads the array again
  except a later reset, so the model does not capture this aliasing.
- `uuidv4`: the new id is a parameter, and the precondition requires that no stored record has it.
- JavaScript `Date` semantics. Parsing is an injected function to an ordered integer, with `None`
  for an Invalid Date. The end-of-day adjustment is an injected function. Time zones are not modelled.
- `toLowerCase` is modelled for ASCII letters only. Other Unicode case mappings are not.
- String lengths in the schema count Dafny characters, not UTF-16 code units.
- The query/cache layer in `src/hooks/useUsers.ts` belongs to react-query: caching, deduplication,
  invalidation and `setQueryData`/`removeQueries`.
- All React/MUI view code: pages, form component, login check, route guard and pagination.
- `src/types/User.ts`, whose record shape is stale.
