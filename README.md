# SDVX score statistics report, modelled in Dafny

This project models the request-handling core of a small web report over a
table of SOUND VOLTEX score statistics. One row of the table holds a chart,
its players' clear lamps and grades, and its average scores. The modelled
core covers:

- the column registry (`column.py`): labels, the display order, the filter
  names, the nine difficulties, and the clear-mark and score-grade groups;
- the query builder `make_sql_from_form` (`modules/make_sql.py`). It turns a
  multi-valued form into a `SELECT` statement, the values for its `?`
  placeholders, the resolved column list, and the rate/count and
  count-shown flags;
- the helpers in `utils/utils.py`: placeholders, the achiever rate and its
  colour class, the standard score, and the ordered score validation;
- the result renderer (`modules/create_results.py`): the header row, one body
  row per result row, and the standard-score line;
- the slice of `sdvx_stats_app.py` that decides what a request returns:
  - the dispatch in `application`;
  - the ranking query of `handle_home` and the lookup query of
    `handle_calculate`;
  - `handle_result`;
  - the `page_data` dicts and the `{% key %}` replace loop;
  - the three display fields the handlers update on the application object.

Modules, one per file:

- `Base` (base.dfy): `Option`, `Result` and the Python exceptions.
- `Builtins` (builtins.dfy): the Python built-ins the code relies on, stated
  once: `join`, `+=`, `count`, `split`, `replace`, `int()`, `str()`,
  `list.index`, and SQLite cell values.
- `Column` (column.dfy).
- `Utils` (utils.dfy).
- `MakeSql` (makesql.dfy).
- `CreateResults` (createresults.dfy).
- `App` (app.dfy), with the class `SdvxStatsApp`.

Each loop in the source has a method with a `while` loop, proved equal to a
recursive specification function:

- `MakeSqlFromForm`, with `InsertRequired` and `CollectConditions`;
- `CreateResultsHeader`;
- `CreateResultsTable`, with `CreateRow` and `CreateRowCells`;
- `ReplaceTokens`.

The properties are proved as lemmas about those functions. A Python exception
becomes `Err(kind)`. A form is a map from field name to the non-empty list of
values sent under it. The database is a function from a statement and its
parameters to the rows it returns.

## Model

| member | source | states |
|---|---|---|
| Column.ColumnOrderIsDisplayOrder | column.py:11-109 | the registry's keys, in insertion order, are the display list position by position, so the table created from the registry lines up with `SELECT *` rows read by display position |
| Column.LabelledExactlyDisplayed | column.py:11-109 | a key has a label exactly when it is a display key, so the label lookup never fails for a resolved selection |
| Column.LookupFinds | modules/create_results.py:38 | a dict lookup succeeds exactly for a listed key, and returns a value listed with that key |
| Column.DisplayDistinct | column.py:65-109 | no display key occurs twice, so `display_info.index(k)` has one answer |
| Column.DifficultyTiers | column.py:111-121 | there are nine difficulties, and those from index 3 on are MAXIMUM, INFINITE, GRAVITY, HEAVENLY, VIVID, EXCEED |
| Column.AchievementGroups | column.py:123-136 | five clear marks and ten score grades, disjoint, all of them display keys |
| Column.RequiredAreDisplayed | column.py:65-70 | `count`, `difficulty_name` and `music_title` are display keys and are not achievement columns |
| Utils.PlaceholderShape | utils/utils.py:21-31 | the placeholder text alternates `?` and `,`, has length 2n-1 (0 when empty) and holds exactly n marks |
| Utils.PlaceholderMarks | utils/utils.py:21-31 | the placeholder text has one `?` per key |
| Utils.PlaceholderDependsOnLength | utils/utils.py:21-31 | two key lists of one length give the same placeholder text |
| Utils.CalculateAchieverRate | utils/utils.py:114-139 | a zero total gives rate 0 and class `zero`; otherwise the rate is achiever/total×100 to the nearest thousandth, negative exactly when the quotient is; the class is the class of the rounded rate |
| Utils.RateClassBuckets | utils/utils.py:131-138 | each of the four classes holds exactly its range: 0, up to 0.100, up to 1.000, above; every upper bound is inclusive |
| Utils.RateWithinPercent | utils/utils.py:129 | for a positive total and 0 ≤ achiever ≤ total, the rate lies in 0..100 % |
| Utils.RateMonotone | utils/utils.py:129-138 | for one positive total, more achievers never give a smaller rate or a lower bucket |
| Utils.OneInAThousand | utils/utils.py:129-134 | 1 of 1000 is 0.1 %, printed `0.1`, the top of `very_rare` |
| Utils.CalculateDeviation | utils/utils.py:34-49 | succeeds exactly when all three values read as integers and the deviation is non-zero; for a positive deviation the result is (score−avg)/sd×10+50 to the nearest thousandth, and it carries a minus sign exactly when the unrounded value is below zero |
| Utils.DeviationExample | utils/utils.py:48 | 6,000,000 against mean 5,000,000 and deviation 500,000 gives 70.0 |
| Utils.ValidateSsScore | utils/utils.py:52-72 | valid exactly for an integer in 0..10,000,000 (empty message); a non-integer gets the "数値" message and an out-of-range integer the range message |
| Utils.ValidateSdScore | utils/utils.py:75-88 | raises exactly when `int()` fails; valid exactly for a non-zero deviation; zero gives the no-data message |
| Utils.ScoreCheckedFirst | utils/utils.py:92-111 | a rejected score decides the verdict, with one of the two score messages, whatever the deviation is, even one `int()` cannot read |
| Utils.ValidateScoreAccepts | utils/utils.py:92-111 | the verdict is `(True, "")` exactly when the score is accepted and the deviation is a non-zero integer; an accepted score with deviation 0 gets the no-data message |
| Utils.ValidationExamples | utils/utils.py:62-88 | the three boundary verdicts: no data for "0", out of range for "-1", not a number for "abc" |
| MakeSql.GetList | modules/make_sql.py:48 | the list is empty exactly when the field was not sent |
| MakeSql.GetValue | modules/make_sql.py:28 | `None` exactly for an absent field; one string exactly for a field sent once, and it is that value |
| MakeSql.FormatFlag | modules/make_sql.py:26 | succeeds exactly for a single integer value, and is true exactly when it is non-zero; a missing or repeated field is a `TypeError` |
| MakeSql.FormatFlagExamples | modules/make_sql.py:24-26 | `format=0` selects counts and `format=1` selects rates |
| MakeSql.FormatFlagErrors | modules/make_sql.py:26 | a non-numeric format is a `ValueError` and a missing one a `TypeError` |
| MakeSql.FormatReadFirst | modules/make_sql.py:26 | a bad format flag decides the outcome whatever the selection and filters hold |
| MakeSql.SelectedKeys | modules/make_sql.py:28 | a key is selected exactly when it is a display key with a truthy form value; a display list without duplicates gives a selection without duplicates |
| MakeSql.SelectionKeepsOrder | modules/make_sql.py:28 | two chosen keys appear in the selection in display order, not form order |
| MakeSql.AddRequired | modules/make_sql.py:37-40 | after the insert loop the keys are exactly the selected keys together with the required ones |
| MakeSql.Missing | modules/make_sql.py:37-40 | the prepended columns are exactly the required columns the selection lacks |
| MakeSql.AddRequiredPrepends | modules/make_sql.py:37-40 | the insert loop yields the missing required columns, last first, followed by the unchanged selection; it introduces no duplicate |
| MakeSql.InsertRequired | modules/make_sql.py:37-40 | the `insert(0, col)` loop computes `AddRequired` |
| MakeSql.NarrowedSelectionLayout | modules/make_sql.py:34-41 | a non-empty choice resolves to the missing required columns, last first, then the choice in its own order |
| MakeSql.RequiredColumnsPresent | modules/make_sql.py:31-41 | every successful query selects `count`, `difficulty_name` and `music_title` |
| MakeSql.ResolveKeysRequired | modules/make_sql.py:31-41 | both branches (all display keys, or choice plus required) contain the three required columns |
| MakeSql.NothingChosenShowsAll | modules/make_sql.py:29-33 | with nothing chosen the statement selects `*`, the keys are the whole display list and the count is not shown |
| MakeSql.CountShownOnlyWhenChosen | modules/make_sql.py:29 | the count is shown exactly when the user ticked it; adding it as a required column does not show it |
| MakeSql.NoDuplicateColumns | modules/make_sql.py:28-41 | the resolved keys have no duplicates and hold the title exactly once |
| MakeSql.ResolveKeysDistinct | modules/make_sql.py:31-41 | both branches give a key list without duplicates holding the title once |
| MakeSql.LevelValues | modules/make_sql.py:51 | succeeds exactly when every level parses; raises `ValueError` otherwise; each output is `str(int(v))` of the level at its position, and re-parses to that level's integer |
| MakeSql.DifficultyName | modules/make_sql.py:55 | a non-integer is a `ValueError`; an index in -9..8 gives the name at that index counted from the end when negative; any other index is an `IndexError` |
| MakeSql.DifficultyValues | modules/make_sql.py:55 | succeeds exactly when every index resolves, name by name; on failure, the error is the first failing item's |
| MakeSql.InConditionMarks | modules/make_sql.py:52-58 | an `IN (...)` condition holds one `?` per value |
| MakeSql.LevelCondition | modules/make_sql.py:50-53 | a level condition holds one `?` per value, or fails with `ValueError` |
| MakeSql.DifficultyCondition | modules/make_sql.py:54-59 | a difficulty condition holds one `?` per value |
| MakeSql.FilterCondition | modules/make_sql.py:48-65 | an absent field adds nothing; only the level and difficulty filters can raise; an added condition is non-empty with one `?` per value |
| MakeSql.TextConditionMarks | modules/make_sql.py:60-65 | a title or artist `LIKE ?` condition has exactly one placeholder |
| MakeSql.TextFilters | modules/make_sql.py:60-65 | a title or artist filter sent as `[""]` adds no condition; otherwise it adds one with the value `%first%` |
| MakeSql.Conditions | modules/make_sql.py:44-65 | every collected condition is non-empty with one `?` per value |
| MakeSql.ConditionMarks | modules/make_sql.py:44-65 | the conditions hold as many `?` as the values list has entries |
| MakeSql.AddCondition | modules/make_sql.py:48-65 | one pass of the filter loop appends the field's condition and values, appends nothing, or raises, as `FilterCondition` says |
| MakeSql.ConditionsStep | modules/make_sql.py:47-65 | one more filter extends the collected conditions by its own, or its exception becomes the whole loop's |
| MakeSql.ConditionsKeepError | modules/make_sql.py:47-65 | once a filter has raised, later filters do not change the outcome |
| MakeSql.CollectStep | modules/make_sql.py:47-65 | one loop pass keeps `conditions`/`values` equal to the texts/values of the conditions so far, or returns the exception of the whole loop |
| MakeSql.CollectConditions | modules/make_sql.py:44-65 | the filter loop returns the condition texts and the concatenated values in filter order, or the first exception raised |
| MakeSql.WhereMarks | modules/make_sql.py:67-70 | the WHERE clause holds one `?` per value |
| MakeSql.WhereOnlyWithConditions | modules/make_sql.py:67-71 | the clause is empty exactly when there is no condition; otherwise it is `WHERE` and the conditions joined by ` AND ` |
| MakeSql.StatementMarks | modules/make_sql.py:71 | the fixed words of the statement add no placeholder |
| MakeSql.ColumnsPlain | modules/make_sql.py:31-41 | the column list has no `?` when no display key has one |
| MakeSql.PlaceholdersMatchValues | modules/make_sql.py:10-73 | the statement's `?` count equals the number of values |
| MakeSql.MakeSqlFromForm | modules/make_sql.py:10-73 | the imperative builder returns exactly `MakeSql`: the statement, the values, the keys and the two flags, or the exception raised |
| CreateResults.HeaderName | modules/create_results.py:38-44 | a name exists exactly for a registry key, and a missing key is a `KeyError` |
| CreateResults.HeaderNameOf | modules/create_results.py:38-44 | exactly display keys have a name; an achievement column gets ` (%)` or ` (人)` after its label, and every other column its bare label |
| CreateResults.HeaderCells | modules/create_results.py:37-49 | succeeds exactly when every key has a label; yields one cell per key except a hidden count |
| CreateResults.HeaderCellsStep | modules/create_results.py:37-49 | one more key adds its cell, with id its 1-based position, unless it is the hidden count; or it fails the whole header |
| CreateResults.HeaderCellsKeepError | modules/create_results.py:37-49 | a key without a label fails the whole header |
| CreateResults.CreateResultsHeader | modules/create_results.py:17-51 | the header loop builds the optional rank cell, the video cell, the key cells and `</tr>`, or raises `KeyError` |
| CreateResults.RankingHeaderAddsRank | modules/create_results.py:34-36 | the ranking header is the ordinary header with `<tr>` and the RANK cell in front |
| CreateResults.ShownCountDropsCount | modules/create_results.py:47-48 | the header shows every key except the count when it is hidden |
| CreateResults.MusicData | modules/create_results.py:66-76 | a title yields two cells, the video cell and the title cell |
| CreateResults.Cell | modules/create_results.py:124 | indexing a row succeeds exactly within its length; past the end is an `IndexError` |
| CreateResults.KeyCells | modules/create_results.py:122-151 | a key yields two cells for the title, none for the hidden count, one otherwise; a shown key past the row's end is an `IndexError` |
| CreateResults.RowCells | modules/create_results.py:122-151 | a row's cells number exactly its width: the title counts twice and a hidden count not at all |
| CreateResults.RowCellsKeepError | modules/create_results.py:122-151 | a key that raises fails the whole row |
| CreateResults.AddKeyCells | modules/create_results.py:122-151 | one pass of the key loop appends the key's cells to the row text, or its exception becomes the row's |
| CreateResults.CreateRowCells | modules/create_results.py:122-151 | the key loop produces the concatenated cells of the row, or the first exception |
| CreateResults.RowHtml | modules/create_results.py:116-152 | a key list without `count` makes every row raise `ValueError` |
| CreateResults.CreateRow | modules/create_results.py:116-152 | one body row: `<tr>`, the rank cell numbered from 1 only for a ranking, the key cells, `</tr>` |
| CreateResults.TableBodyStep | modules/create_results.py:115-152 | one more result row extends the body by its HTML, or its exception fails the whole table |
| CreateResults.TableBodyKeepsError | modules/create_results.py:115-152 | a row that raises fails the whole table |
| CreateResults.CreateResultsTable | modules/create_results.py:81-153 | the header, then the body rows in query order, or the first exception |
| CreateResults.HeaderAndRowAgree | modules/create_results.py:37-151 | when the title column occurs once, a body row has as many cells as the header, the header's video cell included; in general, one cell per header key cell plus one per title column |
| CreateResults.CountColumnNeeded | modules/create_results.py:115-118 | without a `count` key an empty result renders nothing and any other result raises `ValueError` |
| CreateResults.AchievementCellIsRate | modules/create_results.py:134-145 | in percent mode an achievement cell shows the rate against the count column, with the rate's colour class |
| CreateResults.AchievementCellIsCount | modules/create_results.py:134-145 | in count mode an achievement cell shows the stored value with its key as class |
| CreateResults.HiddenCountNotRead | modules/create_results.py:146-149 | a hidden count column is skipped without reading the row |
| CreateResults.CreateDeviationScoreResults | modules/create_results.py:156-174 | a rejected score returns its validation message unchanged; a zero deviation returns the no-data message; otherwise the result is the standard-score line; it raises exactly when `int()` of the deviation or average raises |
| CreateResults.DeviationResultExample | modules/create_results.py:169-172 | a score one deviation above the mean reads `偏差値は60.0です。` |
| CreateResults.NegativeZeroDeviation | modules/create_results.py:169-172 | a standard score just below zero that rounds to zero thousandths reads `偏差値は-0.0です。`, as Python prints the float `-0.0` |
| App.DispatchPrecedence | sdvx_stats_app.py:269-276 | `ss_music` wins over `submit`, which wins over `about`; home only when none is present |
| App.PutKeepsOrder | sdvx_stats_app.py:207 | storing in `page_data` keeps key order, appends a new key, reads back the value and leaves other keys alone |
| App.PutAppends | sdvx_stats_app.py:207 | storing a new key appends it |
| App.PutReplaces | sdvx_stats_app.py:210 | storing a present key overwrites it in place |
| App.PutKeepsKeys | sdvx_stats_app.py:235-247 | storing a present key keeps every key where it is |
| App.ReplaceTokens | sdvx_stats_app.py:249-250 | the replace loop computes `FillTemplate`, item by item in insertion order |
| App.TokenReplaced | sdvx_stats_app.py:117-118 | each item's step leaves no occurrence of its token: the text is split into token-free pieces that rejoin to it, and they are joined with the value |
| App.TemplateWithoutTokens | sdvx_stats_app.py:249-250 | a template without `{` is returned unchanged |
| App.Fill | sdvx_stats_app.py:172-173 | the filled page, or the handler's exception |
| App.RankingPlaceholders | sdvx_stats_app.py:95-100 | the ranking statement holds one `?` per difficulty plus one per level |
| App.RankingValuesListed | sdvx_stats_app.py:90-92 | the ranking's parameters are the six top difficulties and then "18", "19", "20" |
| App.RankingQuery | sdvx_stats_app.py:90-100 | the nine parameters match the nine placeholders |
| App.RankingTableRenders | sdvx_stats_app.py:79-114 | `count` is at index 4, every ranking column has a label, and the header has 8 key cells, or 7 with the count hidden |
| App.RankingKeyOnce | sdvx_stats_app.py:79-88 | each ranking column, `count` and the title among them, occurs once, so the count cell is dropped once and header and body rows line up |
| App.RankingLabelled | sdvx_stats_app.py:79-88 | every ranking column has a registry label |
| App.DisplayPlain | column.py:65-109 | no display key contains `?` |
| App.ResultQueryRenders | sdvx_stats_app.py:154-169 | a query built from any form has one value per `?`, selects `count` and only labelled columns, so its header renders |
| App.LookupQuery | sdvx_stats_app.py:220-224 | the lookup statement has 1+n placeholders and its values are the title, then the n difficulties |
| App.ScoreColumns | sdvx_stats_app.py:232-233 | the average and deviation are read at positions 20 and 21, their positions in the table as created |
| App.TitleStored | sdvx_stats_app.py:198-207 | the title goes after the four defaults, so the keys are those four, then `music_title` |
| App.CalculateWithoutSubmit | sdvx_stats_app.py:209-210 | without `submit` the page data is the "スコアを入力" message, empty fields and the title, whatever the database holds |
| App.CalculateNotFound | sdvx_stats_app.py:198-230 | a lookup that finds nothing leaves the "not found" message and an empty table |
| App.FetchRows | sdvx_stats_app.py:220-229 | the lookup returns the rows for the title and difficulties; a repeated title cannot be bound |
| App.FillStatistics | sdvx_stats_app.py:230-247 | the found row's standard score, heading, header and table are stored, or the first exception is returned |
| App.ShowStatistics | sdvx_stats_app.py:229-248 | the lookup, then the statistics of the first row if there is one |
| App.BuildCalculatePage | sdvx_stats_app.py:198-248 | the calculate handler's `page_data` computation equals `CalculatePageData` |
| App.FoundKeepsKeys | sdvx_stats_app.py:235-247 | filling in a found row only overwrites keys already present |
| App.SearchKeepsKeys | sdvx_stats_app.py:211-248 | the submitted branch only overwrites keys already present |
| App.CalculateSubstitutionOrder | sdvx_stats_app.py:198-250 | on every path the calculate page substitutes `ss_results`, `data_info`, `results_header`, `results_table`, then `music_title` |
| App.ResultsSubstitutionOrder | sdvx_stats_app.py:162-173 | the home and result pages substitute the header, then the body |
| App.SdvxStatsApp.constructor | sdvx_stats_app.py:31-38 | starts with no selected keys and both flags false |
| App.SdvxStatsApp.HandleHome | sdvx_stats_app.py:58-123 | sets the selection to the ranking columns, keeps both flags, and returns the home template filled with the ranking table built under the old flags |
| App.SdvxStatsApp.HandleAbout | sdvx_stats_app.py:125-133 | returns the about page as read |
| App.SdvxStatsApp.HandleResult | sdvx_stats_app.py:135-178 | returns the result page of the form's query; the three display fields take the query's keys and flags, and are unchanged when building the query raises |
| App.SdvxStatsApp.HandleCalculate | sdvx_stats_app.py:180-254 | returns the filled calculate page; the selection becomes every display column once a single difficulty value was submitted, and both flags are kept |
| App.SdvxStatsApp.Application | sdvx_stats_app.py:256-276 | by the dispatch precedence, the response and the new display state are those of the chosen handler |
| Builtins.IndexOf | modules/create_results.py:118 | `list.index` finds an element exactly when it is present, at its first position |
| Builtins.Int | modules/create_results.py:139-140 | `int()` of an integer cell is its value; of a text cell it succeeds exactly when the text parses, with the parsed value; a failure is `ValueError` |
| Builtins.ParseIntToString | modules/make_sql.py:51 | `int(str(n)) == n`, so a re-stringified level keeps its value |
| Builtins.FormatMilliRoundTrip | modules/create_results.py:172 | the printed three-decimal value reads back as the same number of thousandths |
| Builtins.Round3 | utils/utils.py:48 | `round(n / d, 3)` is the nearest thousandth, and the float keeps the sign of the quotient even when it rounds to zero |
| Builtins.FloatTextReadsBack | modules/create_results.py:172 | `str()` of a rounded float reads back as its thousandths, and starts with `-` exactly for a negative value or a negative zero |

## Left out

- SQLite is not modelled. The connection, the cursor and `execute` are
  replaced by a `Database` function from statement and parameters to rows.
  Whether the statement is valid SQL, and what the rows contain, are not
  modelled.
- `init_db` is left out. It is CSV file I/O through pandas, and it creates
  the table.
- WSGI is left out: `cgi.FieldStorage`, `start_response`, UTF-8 encoding,
  Content-Length and the server. The form is a map from field name to its
  non-empty list of values.
- `load_html` is left out; the templates are a parameter. `print_sql` is
  left out; it only writes to standard output.
- Cursor and connection closing are not modelled; they have no effect on the
  response.
- Utils.CalculateAchieverRate: the float division and `round(..., 3)` are
  modelled on integer thousandths, rounding to nearest with ties upward.
  Python's binary floats round ties to even, and the float comparison with
  0.10 and 1.00 happens on binary values. The class is therefore exact only
  away from rounding ties.
- Utils.CalculateDeviation: the same integer-thousandths rounding. The
  printed form follows Python's `str(float)` for values with at most three
  decimals, `-0.0` included. Exponent notation, which Python uses for very
  large or very small floats, is left out: a standard score from integer
  scores of at most 10,000,000 is not that large, and a non-zero rounded
  value is at least 0.001.
- Builtins.Int: `int()` of a string accepts an optional sign and ASCII
  digits. Surrounding whitespace, `_` separators and non-ASCII digits are
  left out. REAL and NULL cells are left out.
- App.LookupRows: a missing `ss_music` is bound as NULL, and
  `music_title = NULL` matches no row in SQL, so it finds nothing.
  `Application` sends a request to the calculate page only when `ss_music`
  is present (`DispatchPrecedence`), so that case cannot come through
  `Application`. A repeated value is a list sqlite cannot bind
  (`DatabaseError`).
- App.Shown: the `repr` of a repeated field's list is written without Python's
  escaping of quotes inside the values.
- App.SdvxStatsApp.HandleCalculate: the source assigns `select_keys`
  mid-way, after splitting the difficulties and before the lookup. The model
  assigns it after building the page data, under the same condition. A later
  exception ends the request either way, so the final state is the same.
- App.ScoreColumns: states the display positions of the average and the
  deviation. `Column.ColumnOrderIsDisplayOrder` connects those to the column
  order the table is created in.
- HTML escaping and URL encoding are absent in the source, and the model has
  none either. The header's video cell stays ahead of required columns that
  were prepended before `music_title`.
