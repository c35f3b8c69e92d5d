# bake_back repository core in Dafny

This project models the data-access core of the bake_back reporting backend: the Postgres repository in
`internal/repository/postgres.go`. The repository has two kinds of logic.

**The filtered list reads.** These are `GetMarketingData` and `GetSalesData`. Each one builds a SELECT statement from
three optional filters: a `from` date, a `to` date and a list of id tokens.
- A filter that is set adds a WHERE condition.
- Every filter value is passed as a positional argument `$1, $2, ...`.
- The id tokens are trimmed, parsed with `strconv.Atoi`, and the ones that fail to parse are dropped.

The two reads differ only in the selected columns, the table, the id column and the ORDER BY list. The model therefore
has one builder, `ListQuery.BuildListQuery`, parameterised by a `ListSpec`. `ListQuery.MarketingList` and
`ListQuery.SalesList` are the two instances.
- The builder is imperative, like the source:
  - the conditions and arguments grow together while `argIndex` counts;
  - the id tokens are filtered in a loop;
  - the IN-list placeholders are written into an array by index.
- It is proved against specification functions: `Conditions`, `Args` and `QueryText`.
- Separate modules prove what the statement means:
  - `Numbering`: the placeholders read off the text are exactly `$1..$n` for the `n` arguments, in order.
  - `Meaning`: which conditions appear, in which order, which rows they accept once bound, and that no filter value
    reaches the text.

**The write policy.** `SaveMarketingData` and `SaveSalesData` insert when the record's id is 0 and update by id
otherwise. `UpdateMarketingData` and `UpdateSalesData` only update.
- The tables are modelled as `map<int, Record<C>>` fields of the class `Repository.PostgresRepository`.
- The methods reassign those fields.
- Their effect is given by the functions `Inserted`, `Updated` and `Saved`, and the lemmas about them state the policy.

Go library behaviour the core relies on is modelled from its documented semantics:
- `strings.TrimSpace`, `strings.Join` and `strings.Split` (one-character separator) in `strings.dfy`;
- `strconv.Atoi` and `strconv.Itoa` for a 64-bit `int` in `strconv.dfy`;
- the `%d` decimal rendering in `decimal.dfy`;
- the `$<n>` placeholder in `placeholders.dfy`.

The handlers' split of the `source_ids` / `team_ids` parameter is in `api.dfy`.

## Model

| member | source | states |
|---|---|---|
| `ListQuery.BuildListQuery` | internal/repository/postgres.go:56-100 | The statement is the base SELECT, then " WHERE " and the conditions joined by " AND " when there is one, then the ORDER BY. The arguments are the set dates followed by the parsed ids. |
| `ListQuery.AddDateConditions` | internal/repository/postgres.go:60-72 | A lower date bound when `from` is non-empty, then an upper bound when `to` is non-empty. Each is numbered with the next parameter number and binds its date text; the next number is one past the arguments. |
| `ListQuery.AddIdCondition` | internal/repository/postgres.go:74-91 | An id list adds one IN condition over the ids that parse, numbered on from the current index, and appends those ids to the arguments. An empty list, or one where no id parses, adds nothing. |
| `ListQuery.FilterIds` | internal/repository/postgres.go:75-81 | The loop keeps exactly the tokens that parse after trimming, in input order (`ValidIds`). |
| `ListQuery.BindIds` | internal/repository/postgres.go:83-89 | The i-th slot holds `$(argIndex+i)`. The ids are appended to the arguments in order, and the index advances by their number. |
| `ListQuery.RenderCond` | internal/repository/postgres.go:63-90 | The text each `fmt.Sprintf` gives a condition: `date >= $k`, `date <= $k` and `<column> IN ($a,...,$b)`. `Numbering.ScanRenderCond` proves that the text refers to exactly the condition's parameter numbers, in order. |
| `ListQuery.MarketingListWellFormed` | internal/repository/postgres.go:57-100 | The marketing statement's fixed text holds no `$`, and its id column and ORDER BY list cannot merge with a placeholder. |
| `ListQuery.SalesListWellFormed` | internal/repository/postgres.go:120-163 | The same for the sales statement. |
| `ListQuery.ParseId` | internal/repository/postgres.go:78 | A token is trimmed and then read with `strconv.Atoi`. `Meaning.ParseIdPadded` proves that every in-range decimal id, with any white space around it, is read as itself. |
| `ListQuery.Values` | internal/repository/postgres.go:77-81 | Never longer than its input. What it keeps is stated by `ListQuery.ValuesSnoc`: one more parse adds its value when it succeeded and nothing otherwise. `Meaning.ValuesMembers` adds that a value is kept if and only if some parse produced it. |
| `ListQuery.ValidIds` | internal/repository/postgres.go:76-81 | The ids the loop keeps: the values of the tokens that parse, in input order. `ValidIdsSnoc`, `ValidIdsAppend`, `ValidIdsEmpty` and `Meaning.ValidIdsMembers` prove what it keeps and in what order. |
| `ListQuery.ValidIdsSnoc` | internal/repository/postgres.go:77-81 | One loop step: one more token adds its id when it parses, and adds nothing otherwise. |
| `ListQuery.ValidIdsAppend` | internal/repository/postgres.go:77-81 | Filtering works token by token: the ids of a concatenation are the concatenated ids. |
| `ListQuery.ValidIdsEmpty` | internal/repository/postgres.go:77-83 | No id survives if and only if no token parses. |
| `Numbering.PlaceholdersNumbered` | internal/repository/postgres.go:60-99 | The placeholders of the statement, in order of appearance, are exactly `$1..$n`, where `n` is the number of arguments. So the k-th placeholder is bound to the k-th argument, and every argument is used. |
| `Numbering.ScanQueryText` | internal/repository/postgres.go:94-100 | The assembled text refers to the parameter numbers of its conditions, in order, and to no other. |
| `Numbering.ScanIdIn` | internal/repository/postgres.go:83-90 | The rendered IN condition refers to exactly its placeholders' numbers, in order. |
| `Numbering.ScanDateBound` | internal/repository/postgres.go:62-72 | A rendered date condition refers to exactly its one parameter number. |
| `Numbering.ConditionsParams` | internal/repository/postgres.go:60-90 | The parameter numbers carried by the conditions are `1..n`, where `n` is the number of arguments. |
| `Meaning.ConditionsPresence` | internal/repository/postgres.go:62-91 | The lower bound is present if and only if `from` is set, and the upper bound if and only if `to` is set. The IN list is present if and only if some id parsed. They appear in that order, each at most once. |
| `Meaning.FilterMeaning` | internal/repository/postgres.go:62-99 | With the placeholders bound to the arguments, the WHERE clause accepts a row if and only if three things hold. Its date is at or after `from` when `from` is set. Its date is at or before `to` when `to` is set. Its id is among the parsed ids when any id parsed. |
| `Meaning.UnparsableIdsIgnored` | internal/repository/postgres.go:74-91 | A list of ids none of which parse gives the same conditions and arguments as no list at all. |
| `Meaning.TextIndependentOfValues` | internal/repository/postgres.go:60-100 | The statement text depends only on which filters are set and how many ids parsed, never on the values. |
| `Meaning.QueryShape` | internal/repository/postgres.go:94-100 | The text starts with the base SELECT and ends with the ORDER BY. It has " WHERE " right after the SELECT when there are conditions, and nothing in between when there are none. |
| `Meaning.ValidIdsMembers` | internal/repository/postgres.go:77-81 | An id survives if and only if some token parses to it. |
| `Meaning.ParseIdPadded` | internal/repository/postgres.go:78 | An in-range decimal id padded with white space on either side parses back to itself. |
| `Strings.TrimSpace` | internal/repository/postgres.go:78 | The result neither starts nor ends with white space. |
| `Strings.TrimSpaceSlice` | internal/repository/postgres.go:78 | The result is a slice of the input with only white space on either side of it. |
| `Strings.TrimSpacePadded` | internal/repository/postgres.go:78 | A text with no surrounding white space, padded with white space on both sides, is trimmed back to itself. |
| `Strings.Join` | internal/repository/postgres.go:90-96 | Go's `strings.Join`, used for the IN list (line 90) and for the WHERE conditions (line 96). `Strings.JoinSplit` and `Strings.SplitJoin` pair it with `Split`, and `Placeholders.ScanJoin` proves that it keeps each part's placeholders. |
| `Strings.Split` | internal/api/handler.go:76 | A split gives at least one piece, and no piece holds the separator. |
| `Strings.JoinSplit` | internal/api/handler.go:76 | Joining the pieces of a split with the separator gives the text back. |
| `Strings.SplitJoin` | internal/api/handler.go:76 | Splitting pieces that were joined with a separator they do not contain gives the pieces back. |
| `Strconv.AtoiAccepts` | internal/repository/postgres.go:78 | `Atoi` accepts only an optional sign followed by at least one ASCII digit. It returns the value that sign and those digits denote, which lies in the int64 range; a negative value has a minus sign. |
| `Strconv.Atoi` | internal/repository/postgres.go:78 | Go's base-10 `strconv.Atoi` for a 64-bit `int`. `AtoiAccepts`, `AtoiSignedDigits` and `AtoiOutOfRange` together show three things: it accepts exactly an optional sign followed by at least one digit with a value in range; it returns that value; it rejects out-of-range digit strings. |
| `Strconv.AtoiSignedDigits` | internal/repository/postgres.go:78 | The converse of `AtoiAccepts`: an optional sign followed by at least one digit, with a value in the int64 range, is accepted with that value. This covers leading zeros, a plus sign and `-0`. |
| `Strconv.AtoiOutOfRange` | internal/repository/postgres.go:78 | An optional sign followed by digits whose value lies outside the int64 range is rejected, as Go's range error rejects it. |
| `Strconv.AtoiCorners` | internal/repository/postgres.go:78 | These read as Go reads them: `+5` is 5, `007` is 7, `-0` is 0. The empty text, a lone `-`, `1_000` and `0x1F` are rejected. |
| `Strconv.AtoiItoa` | internal/repository/postgres.go:78 | Every int64 value, written in decimal, is read back as itself. |
| `Strconv.AtoiRejectsSpace` | internal/repository/postgres.go:78 | A token that still holds white space is rejected, which is why the builder trims first. |
| `Placeholders.ScanDollar` | internal/repository/postgres.go:86 | `fmt.Sprintf("$%d", k)` refers to parameter `k` and to nothing else. |
| `Placeholders.Dollar` | internal/repository/postgres.go:86 | `fmt.Sprintf("$%d", k)`: a `$` followed by at least one digit and nothing else. |
| `Placeholders.ScanJoin` | internal/repository/postgres.go:89 | Joining clean parts with a separator that holds no `$` keeps each part's parameter numbers, in order. |
| `Decimal.NatToStringRoundTrip` | internal/repository/postgres.go:86 | The decimal text `%d` writes for a number reads back as that number. |
| `Api.IdTokens` | internal/api/handler.go:74-77 | An empty parameter gives no tokens (no id filter); otherwise the comma-separated pieces, none holding a comma. |
| `Api.IdTokensJoin` | internal/api/handler.go:74-77 | The tokens, joined back with commas, are the parameter. |
| `Api.IdListRoundTrip` | internal/api/handler.go:76 | A comma-separated list of in-range ids, as a client writes it, reaches the IN list as exactly those ids, in that order. |
| `Repository.Inserted` | internal/repository/postgres.go:183-187 | `INSERT ... RETURNING id`: the table gains exactly the fresh key. The new row carries that id, and both its timestamps are `now`. |
| `Repository.Updated` | internal/repository/postgres.go:189-192 | `UPDATE ... WHERE id = $11`: the keys stay as they were, and every row keeps its id and `created_at`. |
| `Repository.Saved` | internal/repository/postgres.go:182-194 | A save with id 0 adds exactly the fresh key. A save with any other id keeps the keys as they were. |
| `Repository.InsertAddsOneRow` | internal/repository/postgres.go:183-188 | An insert adds exactly one row, under the fresh id. The row holds the record's data columns and has `created_at = updated_at = now`. All other rows are unchanged. |
| `Repository.UpdateOverwritesRow` | internal/repository/postgres.go:189-193 | An update of an existing id writes every data column and `updated_at = now`. It keeps the row's id and `created_at` and changes no other row. |
| `Repository.UpdateNeverInserts` | internal/repository/postgres.go:210-216 | An update keeps the set of ids, and an unknown id changes nothing. |
| `Repository.SaveKeepsKeyed` | internal/repository/postgres.go:182-194 | After a save, every row is still stored under its own positive id. |
| `Repository.UpdateNonPositiveId` | internal/repository/postgres.go:210-216 | On a table whose rows sit under positive ids, updating with an id of 0 or below changes nothing; such an id can arrive from the URL path. |
| `Repository.UpdateIdempotent` | internal/repository/postgres.go:210-216 | Repeating an update with the same record at the same instant changes nothing more. |
| `Repository.CreatedAtSurvivesLaterSaves` | internal/repository/postgres.go:182-194 | A record inserted at `t0` and saved again at `t1` under its new id has `created_at = t0`, `updated_at = t1` and the later data. |
| `Repository.PostgresRepository.constructor` | internal/repository/postgres.go:16-18 | A repository over a database whose tables already hold the given rows, each under its own id. It starts out holding exactly those rows. |
| `Repository.PostgresRepository.GetMarketingData` | internal/repository/postgres.go:56-100 | The marketing statement and its arguments are the builder's result for the marketing instance, and its placeholders are numbered `$1..$n` for its `n` arguments. |
| `Repository.PostgresRepository.GetSalesData` | internal/repository/postgres.go:119-163 | The same for the sales instance. |
| `Repository.PostgresRepository.SaveMarketingData` | internal/repository/postgres.go:182-194 | Id 0 inserts under the fresh id and returns the record with that id. Any other id updates by id, and a negative id changes nothing. The sales table is untouched and the tables stay keyed. |
| `Repository.PostgresRepository.SaveSalesData` | internal/repository/postgres.go:196-208 | The same on the sales table. |
| `Repository.PostgresRepository.UpdateMarketingData` | internal/repository/postgres.go:210-216 | The marketing table becomes `Updated(old table, data, now)`, so the update never inserts. An id of 0 or below leaves the table as it was. The sales table is untouched. |
| `Repository.PostgresRepository.UpdateSalesData` | internal/repository/postgres.go:218-224 | The same on the sales table. |

## Left out

**Not modelled at all**
- Running a statement and scanning its rows. `GetMarketingData` and `GetSalesData` return the statement and the arguments they would send.
  - `Meaning.FilterMeaning` gives the meaning of the WHERE clause. The ordering of dates is a parameter `le`.
  - The ORDER BY is checked only as text; the sort is not evaluated.
- Database and driver errors: the `error` results and the error wrapping of the list reads.
- `GetMarketingSources`, `GetSalesTeams`, `GetAvailableMarketingDates`, `GetAvailableSalesDates` and `GetAvailableDates`. These run fixed statements with no parameters and only scan rows.
- The `*sql.DB` handle. The constructor takes instead the rows the two tables already hold; connections and their lifetime are not modelled.
- The repository interface, the HTTP handlers beyond the id-list split, configuration and `main`.

**The database and the clock become parameters**
- The database's choice of a new serial id becomes the parameter `freshId`. The save methods require it to be positive and unused when they insert.
- `time.Now()` becomes the parameter `now`. The insert reads the clock twice, once for `created_at` and once for `updated_at`. The model uses one reading for both, so it claims `created_at = updated_at` on a fresh row, where the source can differ by the time between the two calls.

**Simplified representations**
- `float64` columns are kept as their 64-bit patterns and `time.Time` as an opaque instant. The repository only copies them.
- Go strings are byte sequences. The model works on characters.
  - `strings.TrimSpace` is modelled on decoded characters with the `unicode.IsSpace` set.
  - Invalid UTF-8 is not modelled.
- `strconv.Atoi` assumes a 64-bit `int`. Its syntax and range errors are both `None`, because the builder only tests for success.

## Notes on the behaviour

- Unparseable ids restrict nothing. If an id list is given but none of its tokens parses, the statement has no IN condition at all, so every row passes that filter (`Meaning.UnparsableIdsIgnored`, `Meaning.FilterMeaning`). This is what the code does on purpose: it checks `len(validIDs) > 0`. The model keeps it.
- Saving or updating with an id that no row has is not an error. The UPDATE matches no row and nothing changes (`Repository.UpdateNeverInserts`).
