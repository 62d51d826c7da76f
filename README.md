# Respiratory-pathogen reformatters, modelled in Dafny

The repository gathers test results from several diagnostic laboratories. Each lab sends its results in its own export format. A separate script per lab, `scripts/reformat_<lab>.py`, turns that lab's files into one table with a fixed set of columns. The table has one row per test request and one call per pathogen: `Pos`, `Neg`, `NA`, `Not tested`, or DASA's own wording.

This project models the reconciliation logic of five of these scripts: DB Molecular, HLAGyn, Fleury, DASA and Sabin. Every script runs the same pipeline:

1. **Catalogs.** Two tables are read into nested dicts. One maps each lab's column names to new names (`dict_rename`). The other maps each lab's bad values to corrected ones (`dict_corrections`).
2. **Layout and preparation.** `fix_datatable` probes a file's columns and values to pick its layout. It adds the id columns that are missing and inserts `sample_id` and `test_kit`.
3. **Identity and cache.** `deduplicate` joins a row's id cells and hashes them with SHA-1 into a `sample_id`. When a cache table is given, it drops the rows whose id the accumulated table `dfT` already holds.
4. **Calls.** The target rows or columns of each request are folded into one call per pathogen. The fold rules differ between scripts, and the model keeps each script's own rule.
5. **File loop.** Each file's frame gets a `lab_id` column, the lab's renames, the corrections and the sex fix. It is then appended to `dfT`.
6. **Aggregation.** Dates and epiweeks are computed and the S-gene call is derived from its Ct. Then comes the projection to the output columns, the report of duplicate rows, `drop_duplicates(keep='last')`, and a sort by lab, test and date.

The model has these parts:

- **Shared building blocks.**
  - `Text`: string primitives.
  - `Tables`: a pandas frame is a column list plus a sequence of rows, each row a `map<string,string>`.
  - `Catalog`: ordered dicts, the catalogs, `fix_data_points`.
  - `Records`: the per-request `data` dict.
  - `Identity`: `generate_id` and `deduplicate`.
  - `Ct`: the Ct rescale in hundredths, and `check_detection`.
  - `Aggregate`: the final steps.
  - `Pipeline`: the accumulator class and the file fold.
- **One module per script:** `DbMolecular`, `HLAGyn`, `Fleury`, `Dasa` and `Sabin`.

In each script module:

- `FixDatatable` and its helper functions specify `fix_datatable`.
- The loops of the script are methods: `FixTable`, the request and target loops, and `Run`. Each method is proved equal to its specification function.
- `Run` appends every file to a `Pipeline.Accumulator`, the object holding `dfT`.
- `Reformat` is the whole script.

Exceptions the scripts raise become `Err` values of a `Result`. These are `KeyError`, `ValueError`, `NameError` and `exit()`.

## Model

| member | source | states |
|---|---|---|
| Text.NatToString | scripts/reformat_dasa.py:220 | `str(n)` is a non-empty digit string without a leading zero that reads back as n |
| Text.JoinHolds | scripts/reformat_hlagyn.py:174 | a substring of one column name is a substring of the names run together by `''.join` |
| Text.ReplaceCharRemovesIt | scripts/reformat_db.py:279-280 | `replace('.', '')` leaves no dot |
| Text.ReplaceCharKeepsOthers | scripts/reformat_db.py:279-280 | `replace('.', '')` drops exactly the dots and keeps every other character |
| Text.ReplaceAbsent | scripts/reformat_db.py:248 | `str.replace` leaves a text without the pattern unchanged |
| Text.PadRight | scripts/reformat_db.py:281-282 | the Ct text padded with '0' to five characters: its prefix is the text, the rest is zeros |
| Text.Before | scripts/reformat_fleury.py:442 | `x.split('A')[0]` is the prefix before the first 'A', holds no 'A', and is all of x without one |
| Text.LeRefl | scripts/reformat_db.py:743 | the string order the sort uses is reflexive |
| Text.LeTotal | scripts/reformat_db.py:743 | the string order the sort uses is total |
| Text.LeAntisym | scripts/reformat_db.py:743 | the string order the sort uses is antisymmetric |
| Text.LeTrans | scripts/reformat_db.py:743 | the string order the sort uses is transitive |
| Tables.Column | scripts/reformat_db.py:252 | `df[c].tolist()` has one entry per row, the row's cell |
| Tables.SetColumn | scripts/reformat_db.py:346-350 | `df[c] = v` sets c to v in every row and appends c when it is new |
| Tables.MapColumn | scripts/reformat_db.py:627 | `df[c].apply(f)` maps exactly column c; a missing column is a KeyError |
| Tables.InsertColumn | scripts/reformat_db.py:342-343 | `df.insert(pos, c, v)` puts c at pos with v in every row; an existing c is refused |
| Tables.AddMissing | scripts/reformat_db.py:194-196 | the columns afterwards are exactly the old ones and the listed ones; exactly the absent ones read '' and every other cell is kept |
| Tables.FilterRows | scripts/reformat_fleury.py:177-178 | a row filter keeps the columns and exactly the rows that pass |
| Tables.KeepCounts | scripts/reformat_fleury.py:177-178 | a filter keeps every copy of a passing row and no copy of a failing one |
| Tables.KeepAppend | scripts/reformat_fleury.py:177-178 | filtering works row by row, so the kept rows stay in their original order |
| Tables.FilterRowsCounts | scripts/reformat_fleury.py:177-178 | the filtered table holds each passing row as often as the table did, and no failing row |
| Tables.Rename | scripts/reformat_db.py:562-567 | `df.rename(columns=m)` renames each column by m, position by position |
| Tables.RenameRow | scripts/reformat_db.py:562-567 | a renamed row has exactly the new names as keys |
| Tables.RenameRowKeeps | scripts/reformat_db.py:562-567 | a column no rename touches keeps its cell |
| Tables.RenameRowTakes | scripts/reformat_db.py:562-567 | the one column renamed to x gives x its cell |
| Tables.FirstOfGroup | scripts/reformat_db.py:238-239 | the first row of a group is the first row of the frame with that key |
| Tables.Concat | scripts/reformat_db.py:629-632 | `pd.concat([a, b])` puts a's rows then b's; its columns are a's, then b's new ones |
| Tables.NewColumns | scripts/reformat_db.py:629-632 | the columns concat appends are exactly those of b that a lacks |
| Tables.NewColumnsDistinct | scripts/reformat_db.py:629-632 | concat appends each new column once |
| Tables.FirstRowRecord | scripts/reformat_db.py:238-239 | `data[col] = dfR[col].tolist()[0]` gives exactly the listed columns with the group's first-row cells |
| Tables.InsertKeySorted | scripts/reformat_db.py:235 | inserting a key keeps the key list strictly sorted and adds exactly that key |
| Tables.GroupKeys | scripts/reformat_db.py:235 | `groupby` visits the distinct values of the column, once each, ascending |
| Tables.GroupRows | scripts/reformat_db.py:235 | a group holds exactly the rows with its key |
| Tables.MissingColumn | scripts/reformat_sabin.py:179-189 | reading listed columns fails exactly when one is absent, and names an absent one |
| Tables.InGroupOrder | scripts/reformat_db.py:268 | iterating the groups visits exactly the frame's rows |
| Tables.Groups | scripts/reformat_db.py:268 | the listed groups hold exactly the rows whose key is listed |
| Tables.SetColumns | scripts/reformat_sabin.py:214-224 | setting several columns to v: every listed column reads v and every other cell is kept |
| Catalog.Put | scripts/reformat_db.py:124-126 | dict assignment: a new key goes last, an existing key keeps its place, the value is replaced |
| Catalog.PutEntry | scripts/reformat_db.py:120-126 | registering one correction keeps the nested dicts well formed |
| Catalog.PutEntries | scripts/reformat_db.py:118-126 | registering under several lab ids keeps the nested dicts well formed |
| Catalog.Register | scripts/reformat_db.py:112-126 | one catalog row keeps the nested dicts well formed |
| Catalog.CorrectionsOf | scripts/reformat_db.py:105-127 | the catalog built from the rows is well formed |
| Catalog.Selected | scripts/reformat_db.py:105 | the lab filter keeps exactly the rows whose lab id is kept; Fleury and DASA keep all rows |
| Catalog.BuildCorrections | scripts/reformat_db.py:105-127 | the catalog loop builds the catalog of the filtered rows |
| Catalog.PutEntryLookup | scripts/reformat_db.py:120-126 | after one registration, lookup gives the new value at that (lab, column, old) and the old answer elsewhere |
| Catalog.PutEntriesLookup | scripts/reformat_db.py:116-126 | registration under several labs answers for exactly those labs |
| Catalog.CorrectionsLookup | scripts/reformat_db.py:105-127 | the catalog answers exactly where a row files a correction: only non-empty old+new, under every id for 'any', and the last such row wins |
| Catalog.CorrectionsLabs | scripts/reformat_sabin.py:106-129 | every lab id in the catalog comes from a selected row; with the Sabin filter it is SABIN or any |
| Catalog.CorrectionsKeys | scripts/reformat_db.py:107-127 | a lab id in the catalog is a row's own id or one of all_ids |
| Catalog.PutEntriesKeys | scripts/reformat_db.py:116-126 | registration adds exactly the listed lab ids |
| Catalog.FixDataPoint | scripts/reformat_db.py:571-575 | `fix_data_points` gives the catalog's replacement when there is one, else the value itself |
| Catalog.Lookup | scripts/reformat_db.py:571-575 | on a well-formed catalog an answer comes only for a lab and a column the catalog lists |
| Catalog.ApplyCorrections | scripts/reformat_db.py:602-607 | the correction loop over every lab and column equals the correction pass function |
| Catalog.FixLab | scripts/reformat_db.py:604-607 | the inner loop over one lab's columns equals the per-lab correction function: guarded it skips a column the frame lacks, unguarded it fails there |
| Catalog.FixColumnsOk | scripts/reformat_hlagyn.py:529-533 | one lab's corrections keep columns and rows, and fail only unguarded, on a listed column the frame lacks |
| Catalog.FixColumnsCells | scripts/reformat_hlagyn.py:529-533 | each corrected cell is `fix_data_points` of its value |
| Catalog.FixColumnsKeeps | scripts/reformat_hlagyn.py:529-533 | a value with no correction for its column is left as it is |
| Catalog.FixLabsOk | scripts/reformat_db.py:602-607 | guarded (DB Molecular) the whole pass never fails; unguarded it fails exactly when the catalog names a column the frame lacks |
| Catalog.FixLabsKeeps | scripts/reformat_db.py:602-607 | a value no lab corrects passes through the whole pass unchanged |
| Catalog.CorrectedKeeps | scripts/reformat_db.py:602-607 | a cell that no lab's catalog corrects is left as it was |
| Catalog.Corrected | scripts/reformat_db.py:602-607 | the correction pass succeeds exactly when it is guarded or every column the catalog lists is in the frame; it keeps the columns and the number of rows |
| Catalog.BuildRenames | scripts/reformat_db.py:91-100 | the rename loop builds the rename dict of its rows |
| Catalog.RenamesLookup | scripts/reformat_db.py:91-100 | a lab's column is renamed exactly when some row names it, and to the last such row's new name |
| Catalog.RenameColumns | scripts/reformat_db.py:562-567 | `rename_columns` leaves a lab without renames alone, else renames each column by the lab's dict |
| Records.ResultCol | scripts/reformat_db.py:244 | `p + '_test_result'` is 12 characters longer than p |
| Records.ResultColInjective | scripts/reformat_db.py:244 | two pathogens have two different result columns |
| Records.PathogensDistinct | scripts/reformat_db.py:210-223 | the twelve pathogens of the dict are distinct |
| Records.Seed | scripts/reformat_db.py:238-239 | copying the first row's cells sets exactly the listed keys and keeps the others |
| Records.PutAll | scripts/reformat_db.py:403-405 | setting keys to one value adds exactly those keys, all with that value, and keeps the rest |
| Records.AppendRecord | scripts/reformat_db.py:335 | `dfN.append(data)` adds one row, the dict, and the dict's new keys as columns |
| Records.Request | scripts/reformat_db.py:235 | a request code read from the column has at least one row |
| Records.RequestKeys | scripts/reformat_db.py:235 | `groupby('NumeroPedido')` visits the distinct codes, ascending, each with rows |
| Records.PerRequest | scripts/reformat_db.py:235-335 | the request loop yields one record per code |
| Records.PerRequestOk | scripts/reformat_db.py:235-335 | the request loop fails exactly when some request's record fails |
| Records.PerRequestRows | scripts/reformat_db.py:235-335 | row i of the frame is the record built from exactly the i-th request's rows |
| Records.PerRequestStep | scripts/reformat_db.py:235-335 | one more request appends its record to the frame so far |
| Identity.SampleId | scripts/reformat_db.py:131-133 | `generate_id(u)[:width]` is width hex digits |
| Identity.ShortIdIsPrefix | scripts/reformat_db.py:140 | the 16-character id is the prefix of the 40-character digest, so equal digests give equal short ids |
| Identity.SameIdCellsSameId | scripts/reformat_db.py:139-140 | rows that agree on the id columns get the same sample id |
| Identity.SameIdCellsSameUnique | scripts/reformat_db.py:139 | rows that agree on the id columns get the same unique_id |
| Identity.AssignIds | scripts/reformat_db.py:139-140 | every row's sample_id hashes its id cells run together; other cells are kept; a missing id column is a KeyError |
| Identity.UniqueId | scripts/reformat_db.py:139 | the unique_id of a row, its id cells run together, contains every one of those cells |
| Identity.Dedup | scripts/reformat_db.py:137-162 | deduplicate never gives more rows than the file had; without a cache dfN comes back as it was; with one every row it keeps has a sample id dfT lacks |
| Identity.SampleIds | scripts/reformat_db.py:144 | the set of a frame's sample ids is exactly the values of its column |
| Identity.Duplicates | scripts/reformat_db.py:144 | the duplicates are exactly the file's ids that dfT holds |
| Identity.AllCachedIff | scripts/reformat_db.py:145 | the size check holds exactly when every sample id of the file is in dfT |
| Identity.DedupAllSeen | scripts/reformat_db.py:144-162 | all ids seen gives two empty frames; otherwise the unseen rows and dfN, or NameError where the report reads an unbound name |
| Identity.DedupKeeps | scripts/reformat_db.py:144-162 | with a cache exactly the rows whose id dfT lacks are kept; without one every row is kept |
| Identity.DedupSecondPass | scripts/reformat_db.py:144-162 | once the kept rows are in dfT, the same file is found fully cached |
| Ct.ValueZeroIffZeros | scripts/reformat_db.py:663 | a digit string reads zero exactly when all its digits are '0' |
| Ct.RoundHundredth | scripts/reformat_db.py:288 | rounding to two decimals is within half a hundredth, exact ties going to the even neighbour |
| Ct.Rescale | scripts/reformat_db.py:279-288 | reading `float()` as plain digits, the rescale fails exactly when the text, with its dots dropped and padded, is not a digit string |
| Ct.RoundAtMostFifty | scripts/reformat_db.py:285-288 | the rounded value is at most 50.00 exactly when the thousandths read are at most 500050 |
| Ct.RescaleAtMostFifty | scripts/reformat_db.py:279-288 | the rescaled Ct is at most 50.00 exactly when the digits read are at most 500050 |
| Ct.ShortCtAtMostFifty | scripts/reformat_db.py:279-288 | a Ct text of at most five digits never rescales above 50.00 |
| Ct.FracDigits | scripts/reformat_db.py:289 | the decimals `str(float)` prints for a hundredths value are one or two digits that read back as it |
| Ct.FormatHundredths | scripts/reformat_db.py:289 | the printed Ct has a whole part, a dot and decimals |
| Ct.FormattedDigits | scripts/reformat_db.py:279-289 | a printed Ct between 10.00 and 50.00 is read back as ten times its hundredths |
| Ct.RescaleFormatted | scripts/reformat_db.py:279-289 | rescaling a Ct the script printed, between 10.00 and 50.00, gives it back |
| Ct.DecimalParts | scripts/reformat_db.py:659-670 | a text of digits with at most one dot splits into the digits before and after the dot, and only such a text does |
| Ct.CheckDetection | scripts/reformat_db.py:659-670 | `check_detection`: an empty text gives ''; a text not starting with a digit gives the 'other' label; a digit-led decimal text gives the positive label when it reads above zero and the negative one when it reads zero; any other digit-led text gives '' |
| Ct.CheckFormatted | scripts/reformat_db.py:659-670 | a printed Ct is called positive exactly when above zero, else negative |
| Aggregate.Dates | scripts/reformat_db.py:639-655 | dates parsed, epiweek added, a null date written 'XXXXX' (line 724); no date_testing column is a KeyError |
| Aggregate.SexCode | scripts/reformat_db.py:627 | the sex fix keeps the first character, and '' stays '' |
| Aggregate.FixSex | scripts/reformat_db.py:627 | each sex cell becomes its first character (empty stays empty) and every other cell is kept; no sex column is a KeyError |
| Aggregate.DatesKeep | scripts/reformat_db.py:639-655 | the date step changes no cell outside date_testing and epiweek |
| Aggregate.WrittenRow | scripts/reformat_db.py:718-743 | every written row is the key_cols projection of some row of the table |
| Aggregate.FinishSexCodes | scripts/reformat_db.py:718-743 | when each row's sex cell is the code of a source row's sex, so is every written row's |
| Aggregate.SexCodeIdempotent | scripts/reformat_db.py:627 | the sex fix applied twice is applied once |
| Aggregate.AddDetection | scripts/reformat_db.py:673-679 | geneS_detection is `check_detection` of Ct_geneS, added only when that column exists |
| Aggregate.ProjectRow | scripts/reformat_db.py:718-722 | a projected row has exactly the key columns with the row's cells |
| Aggregate.Project | scripts/reformat_db.py:718-722 | the projection has exactly key_cols in order; a missing key column is a KeyError |
| Aggregate.DuplicateRows | scripts/reformat_db.py:731-737 | the duplicate report holds every copy of each row that occurs twice or more, and nothing else |
| Aggregate.DuplicateRowsMeaning | scripts/reformat_db.py:731-737 | the report holds a row exactly when the table holds it twice or more |
| Aggregate.KeepLast | scripts/reformat_db.py:740 | drop_duplicates keeps every distinct row |
| Aggregate.KeepLastDistinct | scripts/reformat_db.py:740 | after drop_duplicates no two rows are equal |
| Aggregate.LastIndex | scripts/reformat_db.py:740 | the index it gives holds the value and no later row does: the occurrence keep='last' keeps |
| Aggregate.KeepLastOrder | scripts/reformat_db.py:740 | drop_duplicates(keep='last') leaves the kept rows in the order of their last occurrences |
| Aggregate.KeepLastIdempotent | scripts/reformat_db.py:740 | dropping duplicates twice is dropping them once |
| Aggregate.DistinctKeepLast | scripts/reformat_db.py:740 | a table without duplicates is left as it is |
| Aggregate.KeyLeTotal | scripts/reformat_db.py:743 | the (lab_id, test_id, date_testing) order is total |
| Aggregate.KeyLeTrans | scripts/reformat_db.py:743 | the (lab_id, test_id, date_testing) order is transitive |
| Aggregate.InsertByKey | scripts/reformat_db.py:743 | inserting a row adds exactly it to the multiset |
| Aggregate.InsertByKeySorted | scripts/reformat_db.py:743 | inserting into a sorted table keeps it sorted |
| Aggregate.SortByKey | scripts/reformat_db.py:743 | the sort is a permutation and is sorted by lab, test and date |
| Aggregate.Finish | scripts/reformat_db.py:718-743 | the final steps fail exactly when a key column is missing; the output and the duplicate report have exactly key_cols, and the output is sorted by lab, test and date |
| Aggregate.FinishRows | scripts/reformat_db.py:740-743 | the written rows are the distinct projected rows, sorted |
| Aggregate.FinishMeaning | scripts/reformat_db.py:718-743 | the output has exactly key_cols; it holds each projected row once, sorted; the report holds the rows that occur twice or more |
| Aggregate.Finalize | scripts/reformat_db.py:639-743 | the written table and the duplicate report have exactly key_cols, and the table is sorted by lab, test and date |
| Aggregate.FinalizeMeaning | scripts/reformat_db.py:639-743 | the written table has exactly key_cols, no two equal rows, and is sorted |
| Pipeline.Accumulator.constructor | scripts/reformat_db.py:78-84 | dfT starts as the cache table, or empty |
| Pipeline.Accumulator.Append | scripts/reformat_db.py:629-632 | `dfT = pd.concat([dfT, df])` |
| Pipeline.Fold | scripts/reformat_db.py:586-632 | the loop over the files succeeds when every file step succeeds, and an error it stops with is the error of some step on one of the files |
| Pipeline.FoldKeepsPrefix | scripts/reformat_db.py:586-632 | when each file only appends, the cache rows stay first, in order |
| Pipeline.FoldStops | scripts/reformat_dasa.py:358-387 | a file that fails every step stops the whole run |
| DbMolecular.Classify | scripts/reformat_db.py:173-558 | the layout tests in order: RESP4 in Codigo is the panel; else C or CT in Parametro is Thermo Fisher; else ParametroLIS is Covid-19 |
| DbMolecular.TagPathogens | scripts/reformat_db.py:249 | every row gets its target's pathogen; an unknown target is a KeyError |
| DbMolecular.Values | scripts/reformat_db.py:252 | a column's values, row by row |
| DbMolecular.PainelTarget | scripts/reformat_db.py:270-321 | one target keeps the record's keys and its well-formedness |
| DbMolecular.PainelFold | scripts/reformat_db.py:268-324 | the target loop keeps the record's keys and its well-formedness |
| DbMolecular.TargetEffect | scripts/reformat_db.py:274-304 | a first row of a gene writes the gene's rescaled Ct and its pathogen's call (Pos below 40, Neg from 40, NA without a Ct); any other row changes nothing |
| DbMolecular.TargetKeepsOtherCall | scripts/reformat_db.py:274-304 | a target writes only its own pathogen's call |
| DbMolecular.FoldGenes | scripts/reformat_db.py:274-277 | after the loop the record holds exactly the genes it held or that a row names |
| DbMolecular.ProcessesIff | scripts/reformat_db.py:274-276 | the loop acts on row k exactly when it is the first row of a known gene |
| DbMolecular.LastTargetDecides | scripts/reformat_db.py:291-304 | as written, a pathogen's call is the verdict of its last processed target |
| DbMolecular.StickyStep | scripts/reformat_db.py:303-321 | corrected rule, one target: Pos afterwards exactly when Pos before or this target detects |
| DbMolecular.StickyPosSource | scripts/reformat_db.py:303-321 | corrected rule: a final Pos comes from the start or from a detecting target |
| DbMolecular.StickyKeepsPos | scripts/reformat_db.py:303-321 | corrected rule: a Pos is never lost |
| DbMolecular.StickyDetects | scripts/reformat_db.py:303-321 | corrected rule: one detecting target makes the call Pos |
| DbMolecular.DetectsLast | scripts/reformat_db.py:303-321 | corrected rule: a detecting last target leaves Pos |
| DbMolecular.StickyPositive | scripts/reformat_db.py:303-321 | corrected rule: Pos at the end exactly when Pos at the start or some processed target has Ct below 40 |
| DbMolecular.FoldOk | scripts/reformat_db.py:270-313 | with Results_All present, the loop fails only on a Ct that the plain-digits reading of `float()` refuses |
| DbMolecular.SecondTargetLosesPositive | scripts/reformat_db.py:300-304 | as written, N detected then S without a Ct leaves SC2 at NA; the corrected rule keeps Pos |
| DbMolecular.Ct25Detects | scripts/reformat_db.py:291-293 | Ct 25.0 is a detection |
| DbMolecular.NoTargetKeepsCall | scripts/reformat_db.py:268-324 | a pathogen without target rows keeps its starting call |
| DbMolecular.RenameTargets | scripts/reformat_db.py:248 | NGENERV is renamed NGRV in every row and nothing else changes |
| DbMolecular.KitLoopLast | scripts/reformat_db.py:250-255 | every probe overwrites the kit, so the last probe decides it |
| DbMolecular.TestKit | scripts/reformat_db.py:250-255 | the kit is test_4 exactly when RSVRV is among the targets, else covid; no other key changes |
| DbMolecular.PainelStartCall | scripts/reformat_db.py:243-244 | before the loop every call is 'Not tested' |
| DbMolecular.VisitsAvoid | scripts/reformat_db.py:248-249 | the visited rows carry the pathogens of the request's own targets |
| DbMolecular.PainelNotTested | scripts/reformat_db.py:243-335 | a pathogen with no target in the request stays 'Not tested' |
| DbMolecular.PainelRecord | scripts/reformat_db.py:236-333 | with every target known, a request without ResultadoLIS is a KeyError; a record is a well-formed dict holding every column and every pathogen call |
| DbMolecular.PainelTable | scripts/reformat_db.py:234-335 | controls dropped, then one record per request code |
| DbMolecular.PainelTargets | scripts/reformat_db.py:268-324 | the target loop equals its fold |
| DbMolecular.BuildPainelRecord | scripts/reformat_db.py:236-333 | the request body equals the panel record function |
| DbMolecular.PainelRequests | scripts/reformat_db.py:235-335 | the request loop equals one record per request code, in code order |
| DbMolecular.UniformColsMeaning | scripts/reformat_db.py:398 | unique_cols holds exactly the columns with one value in the request |
| DbMolecular.NeedsMarker | scripts/reformat_db.py:407-411 | the S-gene marker row is added exactly when no SGENE row exists and some result reads 'detectado'; a missing Resultado column is a KeyError |
| DbMolecular.ThermoRecord | scripts/reformat_db.py:397-427 | no Exame column is a KeyError, and so is a request with no SGENE row when the file lacks Resultado; a record is a well-formed dict holding every other pathogen's result column |
| DbMolecular.ThermoTable | scripts/reformat_db.py:395-429 | one record per request code |
| DbMolecular.ThermoFoldOk | scripts/reformat_db.py:415-427 | the Ct loop fails exactly when a reported target has no readable Ct |
| DbMolecular.ThermoLastCtWins | scripts/reformat_db.py:415-427 | a target's Ct is the rescaled Ct of its last row |
| DbMolecular.LastCtReported | scripts/reformat_db.py:415-417 | a gene with a last row is a gene the request reports |
| DbMolecular.ThermoFoldKeeps | scripts/reformat_db.py:415-427 | the Ct loop writes only target genes |
| DbMolecular.ThermoCtsLast | scripts/reformat_db.py:407-427 | each reported target holds its last row's Ct, and the marker sets SGENE to 0.0 |
| DbMolecular.ThermoCtsKeeps | scripts/reformat_db.py:407-427 | nothing but target genes is written |
| DbMolecular.ThermoRecordCts | scripts/reformat_db.py:395-429 | in the Thermo Fisher record every reported target holds its last row's rescaled Ct |
| DbMolecular.ThermoStartOthers | scripts/reformat_db.py:403-405 | before the Ct loop every pathogen but SC2 reads 'NA' |
| DbMolecular.ThermoOthersNA | scripts/reformat_db.py:403-427 | in the record every pathogen but SC2 reads 'NA' |
| DbMolecular.ThermoSGeneDropout | scripts/reformat_db.py:407-427 | a detected request without an SGENE row gets S-gene Ct 0.0, which `check_detection` calls negative |
| DbMolecular.MarkerCt | scripts/reformat_db.py:409 | the marker's Ct '0.0' reads zero and prints back as 0.0 |
| DbMolecular.BlankAbsentMeaning | scripts/reformat_db.py:528-530 | the blanking reaches exactly the unreported targets, which read '' |
| DbMolecular.CovidRecord | scripts/reformat_db.py:493-551 | a request gets a record only when every target but the controls is a known one; the record is a well-formed dict holding every column and every other pathogen's result column |
| DbMolecular.CovidTable | scripts/reformat_db.py:492-552 | one record per request code |
| DbMolecular.FirstCtSnoc | scripts/reformat_db.py:538 | a later row does not change a target's first Ct |
| DbMolecular.FirstCtAgree | scripts/reformat_db.py:534-538 | rows that agree on target and Ct give the same first Ct |
| DbMolecular.FirstCtKeep | scripts/reformat_db.py:516 | dropping controls leaves a target's first Ct alone |
| DbMolecular.CovidFoldNeedsLis | scripts/reformat_db.py:536 | without ResultadoLIS the loop fails on its first row (KeyError) |
| DbMolecular.CovidFirstCtWins | scripts/reformat_db.py:533-551 | a target gets its first row's rescaled Ct; a target already in the record keeps its value |
| DbMolecular.CovidFoldKeeps | scripts/reformat_db.py:533-551 | the loop writes only SC2 targets |
| DbMolecular.GroupRowsAll | scripts/reformat_db.py:533 | a group of rows that all share the key is all of them |
| DbMolecular.CovidVisits | scripts/reformat_db.py:516-534 | the loop visits the request's non-control rows, in order, each tagged SC2 |
| DbMolecular.CovidRecordCts | scripts/reformat_db.py:492-552 | a reported target holds its first row's rescaled Ct; an unreported one of all_targets reads ''; any other is absent |
| DbMolecular.CovidStartLacks | scripts/reformat_db.py:495-501 | before the blanking the record holds no target that is not a column |
| DbMolecular.CovidBlanked | scripts/reformat_db.py:528-530 | `data[tcode] = ''` reaches exactly the unreported targets of all_targets |
| DbMolecular.ThermoLoop | scripts/reformat_db.py:415-427 | the Thermo Fisher Ct loop equals its fold |
| DbMolecular.BuildThermoRecord | scripts/reformat_db.py:397-427 | the request body equals the record function |
| DbMolecular.ThermoRequests | scripts/reformat_db.py:395-429 | the request loop equals the Thermo Fisher frame |
| DbMolecular.CovidLoop | scripts/reformat_db.py:533-551 | the Covid-19 Ct loop equals its fold |
| DbMolecular.BuildCovidRecord | scripts/reformat_db.py:493-551 | the request body equals the record function |
| DbMolecular.CovidRequests | scripts/reformat_db.py:492-552 | the request loop equals the Covid-19 frame |
| DbMolecular.Prepared | scripts/reformat_db.py:178-458 | after the preparation every id column of the layout is present |
| DbMolecular.FixDatatable | scripts/reformat_db.py:554-558 | a table of unknown layout comes back unchanged |
| DbMolecular.FullyCachedFixesToEmpty | scripts/reformat_db.py:200-206 | a fully cached file comes out of fix_datatable empty |
| DbMolecular.LabFrameTagged | scripts/reformat_db.py:594-627 | every row of a lab frame carries lab_id DB Molecular and a sex code of at most one character |
| DbMolecular.FullyCachedFileFails | scripts/reformat_db.py:593-627 | as written, a fully cached file stops the run with KeyError('sex') |
| DbMolecular.EmptyLabFrameFails | scripts/reformat_db.py:594-627 | the empty frame only gets lab_id, so the sex fix finds no column |
| DbMolecular.FullyCachedFileSkipped | scripts/reformat_db.py:593-632 | corrected: a file with nothing new leaves dfT as it was |
| DbMolecular.LabFrameSex | scripts/reformat_db.py:594-627 | with sex neither renamed nor corrected, each row's sex in the lab frame is the first character of the file's sex cell |
| DbMolecular.FileStepAppends | scripts/reformat_db.py:593-632 | each file only appends: dfT's rows stay first, in order |
| DbMolecular.RunKeepsCache | scripts/reformat_db.py:586-632 | the cache rows survive the whole file loop |
| DbMolecular.FixTable | scripts/reformat_db.py:171-558 | fix_datatable with its loops equals the specification function |
| DbMolecular.Run | scripts/reformat_db.py:586-632 | the file loop equals the fold over the files, and the accumulator holds its result |
| DbMolecular.Reformatted | scripts/reformat_db.py:78-743 | a whole run that succeeds writes a table and a duplicate report with exactly the key columns, the table sorted by lab, test and date |
| DbMolecular.Reformat | scripts/reformat_db.py:78-743 | the script equals the catalogs, the file fold and the aggregation, with both corrections of the Findings |
| HLAGyn.Classify | scripts/reformat_hlagyn.py:174-478 | the panel exactly when the joined names hold H1N1 or Influenza; else Covid-19 exactly when there is a CT_N column |
| HLAGyn.PanelByColumnName | scripts/reformat_hlagyn.py:174 | a column whose own name holds H1N1 or Influenza makes the file a panel |
| HLAGyn.PanelAcrossNames | scripts/reformat_hlagyn.py:174 | the joined names can hold the probe across two names |
| HLAGyn.KitOf | scripts/reformat_hlagyn.py:192-257 | the 24-column variants insert test_24, the four-column one test_4, an unknown one no kit |
| HLAGyn.CallFold | scripts/reformat_hlagyn.py:379-397 | the target loop ends at its start call, 'Pos' or 'Neg'; it moves to 'Pos' only when a present target reads 'Detectado' and to 'Neg' only when one reads 'Não Detectado' |
| HLAGyn.FirstInformative | scripts/reformat_hlagyn.py:379-397 | the first informative value is Detectado or Não Detectado |
| HLAGyn.SettledStays | scripts/reformat_hlagyn.py:384-394 | as written, a settled call never changes again |
| HLAGyn.FirstInformativeDecides | scripts/reformat_hlagyn.py:375-397 | as written, the first target reading Detectado or Não Detectado decides the call; with none it is NA |
| HLAGyn.UpgradeFold | scripts/reformat_hlagyn.py:384-394 | corrected: Pos when any target is Detectado, else Neg when any is Não Detectado, else NA |
| HLAGyn.UpgradeResolves | scripts/reformat_hlagyn.py:384-394 | corrected, from NA: each of Pos, Neg and NA exactly when its condition on the targets holds |
| HLAGyn.NegBlocksLaterDetectado | scripts/reformat_hlagyn.py:385 | as written, Influenza A Não Detectado then H1N1 Detectado gives FLUA Neg; the corrected rule gives Pos |
| HLAGyn.Calls | scripts/reformat_hlagyn.py:375-397 | the pathogen loop keeps every key of the record and the dict well formed, and writes each pathogen's result column |
| HLAGyn.CallsMeaning | scripts/reformat_hlagyn.py:375-397 | each pathogen gets the call of its targets; other keys keep their values |
| HLAGyn.PanelPathogensDistinct | scripts/reformat_hlagyn.py:276-352 | the pathogens of the dict are distinct |
| HLAGyn.PanelRecord | scripts/reformat_hlagyn.py:368-397 | a row's record is a well-formed dict holding every column of the row and every pathogen result column |
| HLAGyn.PanelRecordMeaning | scripts/reformat_hlagyn.py:368-397 | the record holds every cell of its row, except each pathogen's result column, which holds its call |
| HLAGyn.RowRecords | scripts/reformat_hlagyn.py:366-399 | one record per input row, in order |
| HLAGyn.WithBirthdate | scripts/reformat_hlagyn.py:355-356 | the birthdate column adds no row |
| HLAGyn.Prepared | scripts/reformat_hlagyn.py:176-262 | the preparation keeps the rows and leaves every id column of the layout present |
| HLAGyn.Deduplicated | scripts/reformat_hlagyn.py:265-272 | deduplicate succeeds only when the file has every id column of its layout and, with a cache, only when dfT has sample_id |
| HLAGyn.FixDatatable | scripts/reformat_hlagyn.py:474-478 | a table of unknown layout comes back unchanged |
| HLAGyn.PanelOneRecordPerRow | scripts/reformat_hlagyn.py:366-399 | without a cache, the panel gives one record per row of the file |
| HLAGyn.CovidIdsUntouched | scripts/reformat_hlagyn.py:406-425 | the columns the Covid-19 preparation writes are not id columns |
| HLAGyn.CovidIds | scripts/reformat_hlagyn.py:406-430 | the Covid-19 sample id hashes the file's id cells, CT_N included, as written |
| HLAGyn.IdsAfterKitColumns | scripts/reformat_hlagyn.py:424-430 | inserting sample_id and test_kit before hashing leaves the id cells as in the file |
| HLAGyn.CovidReshapeCells | scripts/reformat_hlagyn.py:454-471 | the reshape keeps the sample id, turns commas in CT_N into dots, and sets every pathogen but SC2 to NA |
| HLAGyn.CovidColumnsApart | scripts/reformat_hlagyn.py:454-467 | the NA columns, the blank Ct columns and the Ct columns are apart |
| HLAGyn.CovidIdBeforeDecimals | scripts/reformat_hlagyn.py:402-472 | the sample id hashes CT_N as the file wrote it, and the written CT_N has dots |
| HLAGyn.CorrectionsNeedColumns | scripts/reformat_hlagyn.py:529-533 | the corrections stop the run exactly when the catalog names a column the frame lacks |
| HLAGyn.FileStep | scripts/reformat_hlagyn.py:515-561 | a preparation error propagates; an empty frame leaves dfT as it was; otherwise the result is dfT's rows followed by the lab frame's, with the union of the columns |
| HLAGyn.RunKeepsCache | scripts/reformat_hlagyn.py:508-561 | the cache rows survive the whole file loop |
| HLAGyn.FullyCachedSkipped | scripts/reformat_hlagyn.py:515-518 | a fully cached file adds nothing |
| HLAGyn.ResolveTargets | scripts/reformat_hlagyn.py:379-397 | the target loop equals the call fold |
| HLAGyn.BuildPanelRecord | scripts/reformat_hlagyn.py:369-397 | one row's data dict equals the record function |
| HLAGyn.PanelRows | scripts/reformat_hlagyn.py:368-399 | the row loop equals one record per row |
| HLAGyn.FixTable | scripts/reformat_hlagyn.py:169-478 | fix_datatable with its loops equals the specification function |
| HLAGyn.Run | scripts/reformat_hlagyn.py:508-561 | the file loop equals the fold, and the accumulator holds its result |
| HLAGyn.Reformatted | scripts/reformat_hlagyn.py:103-707 | a whole run that succeeds writes a table and a duplicate report with exactly the key columns, the table sorted by lab, test and date |
| HLAGyn.Reformat | scripts/reformat_hlagyn.py:103-707 | the script equals the catalogs, the file fold and the aggregation, with the correction of the Findings |
| Fleury.Call | scripts/reformat_fleury.py:245-250 | Pos exactly when the result is in positives, else Neg |
| Fleury.Filtered | scripts/reformat_fleury.py:176-178 | exactly the rows whose PATOGENO and RESULTADO are outside the ignore list are kept; a missing column is a KeyError |
| Fleury.Prepared | scripts/reformat_fleury.py:176-206 | the id columns are present and the rows are the filtered ones |
| Fleury.TargetPathogens | scripts/reformat_fleury.py:240 | every row's pathogen from `target_pathogen`; an unknown target is a KeyError naming the first one |
| Fleury.Tagged | scripts/reformat_fleury.py:239-240 | the kit and pathogen columns are added, rows and other cells kept |
| Fleury.FluAntigenRewrite | scripts/reformat_fleury.py:261-269 | rewriting the two results keeps the rows |
| Fleury.FluAntigenTable | scripts/reformat_fleury.py:253-269 | the doubled AGINFLU table has at least the FLUA and FLUB rows |
| Fleury.RequestsTable | scripts/reformat_fleury.py:219-334 | one record per request code |
| Fleury.ScanCall | scripts/reformat_fleury.py:309-321 | the VIRUSMOL scan ends at its start call, 'Pos' or 'Neg', and it ends at 'Pos' only from 'Pos' or when one of the results is a positive one |
| Fleury.ScanSettled | scripts/reformat_fleury.py:311-318 | once a positive is seen the call no longer changes |
| Fleury.ScanFindsPositive | scripts/reformat_fleury.py:307-321 | VIRUSMOL: Pos exactly when some result is positive, Neg otherwise (the start call without results) |
| Fleury.ScanOrderFree | scripts/reformat_fleury.py:307-321 | the VIRUSMOL call does not depend on the order of the results |
| Fleury.GroupCallsCall | scripts/reformat_fleury.py:272-321 | each pathogen the groupby visits gets the call its rows give |
| Fleury.GroupCallsKeeps | scripts/reformat_fleury.py:272-321 | other keys keep their values |
| Fleury.TaggedGroup | scripts/reformat_fleury.py:240 | a row naming pathogen k is tagged k |
| Fleury.SingleRecordCall | scripts/reformat_fleury.py:239-250 | the single-test record calls the first row's pathogen from its result |
| Fleury.SingleTestCall | scripts/reformat_fleury.py:234-250 | a single-test exam gets its exam's kit and the call of its first row's result |
| Fleury.TaggedFirst | scripts/reformat_fleury.py:240 | the first tagged row of pathogen k is the first source row naming k |
| Fleury.PanelCall | scripts/reformat_fleury.py:287-321 | a panel record calls each named pathogen by the panel's rule from its rows |
| Fleury.PanelRecord | scripts/reformat_fleury.py:283-321 | a panel request gets a record exactly when the frame has no test_kit column yet, has PATOGENO, and every target is a known one; the record holds every column of the frame |
| Fleury.PositiveFromRow | scripts/reformat_fleury.py:307-321 | a positive result of pathogen k comes from a source row naming k |
| Fleury.RowGivesPositive | scripts/reformat_fleury.py:307-321 | a source row naming k with a positive result gives k a positive result |
| Fleury.TaggedPositive | scripts/reformat_fleury.py:307-321 | pathogen k has a positive result exactly when some source row naming k has one |
| Fleury.FourTargetsCall | scripts/reformat_fleury.py:284-295 | the four-target panel calls each pathogen from the result of its first row |
| Fleury.VirusmolCall | scripts/reformat_fleury.py:302-321 | VIRUSMOL: Pos exactly when some row naming the pathogen is positive, else Neg |
| Fleury.FluAntigenCell | scripts/reformat_fleury.py:255-259 | doubling and relabelling keep every other cell |
| Fleury.FluAntigenResult | scripts/reformat_fleury.py:255-259 | every result survives the relabelling |
| Fleury.FluAntigenLabels | scripts/reformat_fleury.py:257-259 | the first two rows are FLUA and FLUB |
| Fleury.FluAntigenResultsFrom | scripts/reformat_fleury.py:255 | each result of the doubled request is one of the request's |
| Fleury.FluAntigenResultsTo | scripts/reformat_fleury.py:255 | each result of the request is one of the doubled request's |
| Fleury.FluAntigenPairMembers | scripts/reformat_fleury.py:261-269 | the result table looks only at which wordings occur |
| Fleury.FluAntigenSamePair | scripts/reformat_fleury.py:255-269 | the doubled request and the request give the same rewrite |
| Fleury.FluWordingCalls | scripts/reformat_fleury.py:217 | the wordings written read Pos, Pos and Neg |
| Fleury.FluAntigenReadCalls | scripts/reformat_fleury.py:261-280 | read through the positives list, the rewritten results give A-and-B, A-only and B-only calls |
| Fleury.FluAntigenTableShape | scripts/reformat_fleury.py:253-269 | the AGINFLU table has FLUA then FLUB first, with the kit and pathogen columns |
| Fleury.FluAntigenRewriteRows | scripts/reformat_fleury.py:261-269 | the rewrite keeps columns and labels and changes only the first two results |
| Fleury.FluAntigenRewriteKeeps | scripts/reformat_fleury.py:261-269 | the rewrite touches only RESULTADO |
| Fleury.FluAntigenTableResults | scripts/reformat_fleury.py:253-269 | the FLUA and FLUB rows hold the results the table reads |
| Fleury.FluAntigenGroupCall | scripts/reformat_fleury.py:272-280 | an AGINFLU pathogen is called from the first row naming it |
| Fleury.FluAntigenCall | scripts/reformat_fleury.py:253-280 | AGINFLU: FLUA and FLUB follow the result table (A and B, A only, B only) |
| Fleury.TaggedFirstCell | scripts/reformat_fleury.py:239-240 | the tagged table keeps the first row's other cells |
| Fleury.FluAntigenFirstCell | scripts/reformat_fleury.py:253-269 | the AGINFLU table keeps the first row's other cells |
| Fleury.SingleRecordCell | scripts/reformat_fleury.py:327-331 | a single test's record copies the first row's other cells |
| Fleury.PanelRecordCell | scripts/reformat_fleury.py:327-331 | a panel's record copies the first row's other cells |
| Fleury.FluAntigenRecordCell | scripts/reformat_fleury.py:327-331 | the AGINFLU record copies the first row's other cells |
| Fleury.RecordCode | scripts/reformat_fleury.py:219-331 | the record carries its request code |
| Fleury.RequestCodes | scripts/reformat_fleury.py:219-334 | row i of the frame is the record of the i-th request code |
| Fleury.UnknownTargetFails | scripts/reformat_fleury.py:240-304 | an unknown PATOGENO in a mapped exam is a KeyError naming it |
| Fleury.UntreatedExamAllNA | scripts/reformat_fleury.py:298-323 | AGRESPVIR and unknown exams: no kit and every call NA |
| Fleury.PartialHitFails | scripts/reformat_fleury.py:141-142 | as written, a partial cache hit is a NameError (test_name is unbound) |
| Fleury.PartialHitKeepsNew | scripts/reformat_fleury.py:141-145 | corrected: a partial hit reshapes exactly the rows whose id dfT lacks |
| Fleury.FullyCachedSkipped | scripts/reformat_fleury.py:209-212 | a fully cached file leaves dfT as it was |
| Fleury.LabFrame | scripts/reformat_fleury.py:376-377 | lab_id is inserted, rows kept; an existing lab_id column is refused |
| Fleury.FileStep | scripts/reformat_fleury.py:370-384 | a preparation error propagates; an empty frame leaves dfT as it was; otherwise the result is dfT's rows followed by the lab frame's, with the union of the columns |
| Fleury.LabFrameAdds | scripts/reformat_fleury.py:376-384 | the frame's rows follow dfT's, each carrying the lab id |
| Fleury.FileStepAdds | scripts/reformat_fleury.py:370-384 | a file adds one row per request, each with the lab id |
| Fleury.RunKeepsCache | scripts/reformat_fleury.py:360-384 | the cache rows survive the whole file loop |
| Fleury.FixAge | scripts/reformat_fleury.py:441-442 | D without A gives '0'; with A, the text before the first A; else unchanged; no A remains |
| Fleury.FixAgeYears | scripts/reformat_fleury.py:441-442 | an age n followed by A reads n |
| Fleury.Finalized | scripts/reformat_fleury.py:403-487 | the written table and the duplicate report have exactly the key columns, and the table is sorted by lab, test and date |
| Fleury.FinalizedSex | scripts/reformat_fleury.py:403-487 | with sex uncorrected, every written sex is the first character of some input row's sex |
| Fleury.FinalizedMeaning | scripts/reformat_fleury.py:403-487 | the written table has exactly key_cols, no two equal rows, is sorted, with ages without A and one-letter sex codes |
| Fleury.CorrectionsNeedColumns | scripts/reformat_fleury.py:403-407 | the correction pass stops the run exactly when the catalog names a column dfT lacks |
| Fleury.ScanResults | scripts/reformat_fleury.py:309-321 | the VIRUSMOL loop with its positive flag equals the scan |
| Fleury.ResolveGroups | scripts/reformat_fleury.py:272-321 | the groupby loop equals the group calls |
| Fleury.SeedRecord | scripts/reformat_fleury.py:330-331 | the copy loop equals the seeding function |
| Fleury.BuildSingle | scripts/reformat_fleury.py:234-250 | the single-test branch equals its record function |
| Fleury.BuildPanel | scripts/reformat_fleury.py:283-321 | the panel branches equal their record function |
| Fleury.BuildFluAntigen | scripts/reformat_fleury.py:253-280 | the AGINFLU branch equals its record function |
| Fleury.BuildRecord | scripts/reformat_fleury.py:220-334 | the request body equals the record function |
| Fleury.Requests | scripts/reformat_fleury.py:219-334 | the request loop equals the requests frame |
| Fleury.FixDatatable | scripts/reformat_fleury.py:172-341 | a file the preparation rejects fails; a non-empty result comes only from a file whose filtered rows are non-empty |
| Fleury.FixTable | scripts/reformat_fleury.py:172-341 | fix_datatable with its loops equals the specification function |
| Fleury.Run | scripts/reformat_fleury.py:360-384 | the file loop equals the fold, and the accumulator holds its result |
| Fleury.Finalize | scripts/reformat_fleury.py:386-487 | the steps after the file loop equal the corrections, the date columns and the aggregation function, failing where they fail |
| Fleury.Reformatted | scripts/reformat_fleury.py:94-487 | a whole run that succeeds writes a table and a duplicate report with exactly the key columns, the table sorted by lab, test and date |
| Fleury.Reformat | scripts/reformat_fleury.py:94-487 | the script equals the catalogs, the file fold, the corrections and the aggregation, with the correction of the Findings |
| Dasa.Classify | scripts/reformat_dasa.py:159-253 | a codigo column is the panel; else a Gene S column is Thermo Fisher |
| Dasa.ParseInt | scripts/reformat_dasa.py:213 | an optional sign and ASCII digits parse to their value; any other text is a ValueError |
| Dasa.ParseIntString | scripts/reformat_dasa.py:213-220 | `int(str(n)) == n` |
| Dasa.EmptyIsNoInt | scripts/reformat_dasa.py:213 | an empty positivo is a ValueError, so the no-Ct branch is unreachable |
| Dasa.PathogenOfCode | scripts/reformat_dasa.py:191-204 | exactly FLUA, FLUB, VSR and COVID map to a pathogen |
| Dasa.CodesApart | scripts/reformat_dasa.py:191-192 | two codes report two pathogens, and no code is a result column |
| Dasa.FirstUnknownCode | scripts/reformat_dasa.py:205 | none exactly when every code is known; else an unknown code of the request |
| Dasa.GeneFoldOk | scripts/reformat_dasa.py:210-234 | the fold fails exactly when there are rows and positivo is missing or not a number |
| Dasa.GeneFold | scripts/reformat_dasa.py:210-234 | the gene loop keeps every key of the record, and each key it adds is a gene code or a pathogen result column |
| Dasa.GeneFoldCall | scripts/reformat_dasa.py:211-227 | a code's first row writes `str(positivo)` and DETECTADO when it is 1, else NÃO DETECTADO |
| Dasa.GeneFoldKeeps | scripts/reformat_dasa.py:217 | once a code is written, later rows keep it and its call |
| Dasa.GeneFoldOthers | scripts/reformat_dasa.py:211-234 | other keys are left alone |
| Dasa.FirstWithAppend | scripts/reformat_dasa.py:210-211 | the first row with a code in two parts is the first part's, else the second's |
| Dasa.FirstWithGroup | scripts/reformat_dasa.py:210 | inside its group a code keeps its first row |
| Dasa.FirstWithGroups | scripts/reformat_dasa.py:210 | regrouping by pathogen keeps each code's first row |
| Dasa.PanelRecordOk | scripts/reformat_dasa.py:195-245 | the record fails exactly on an unknown code (KeyError naming it) or an unreadable positivo |
| Dasa.PanelRecord | scripts/reformat_dasa.py:195-245 | a request gets a record only when none of its target codes is unknown, and the record holds every column of the file and every pathogen result column |
| Dasa.PanelCall | scripts/reformat_dasa.py:195-245 | a pathogen's call is the verdict of its code's first row, or 'Not tested' without one |
| Dasa.PanelRecordCells | scripts/reformat_dasa.py:197-202 | the first row's other cells are kept |
| Dasa.PanelRequests | scripts/reformat_dasa.py:195-245 | one record per request code |
| Dasa.PanelRequestCall | scripts/reformat_dasa.py:195-245 | row i of the frame carries the verdict of each code's first row in request i |
| Dasa.PanelPrepared | scripts/reformat_dasa.py:164-178 | preparation succeeds exactly when sample_id and test_kit are absent; id columns present, rows kept |
| Dasa.PanelColumnsApart | scripts/reformat_dasa.py:164-177 | the inserted columns are not id or Ct columns |
| Dasa.WithResult | scripts/reformat_dasa.py:257-269 | resultado is there, or made from resultado_norm, or from resultado_original, else exit |
| Dasa.RenamedHas | scripts/reformat_dasa.py:259-265 | a renamed column is present under its new name |
| Dasa.ResultFallback | scripts/reformat_dasa.py:257-266 | NEGATIVO, and NDT, read NAO DETECTADO; every other value reads DETECTADO |
| Dasa.WithRequisicao | scripts/reformat_dasa.py:271-275 | requisicao is there afterwards and the other columns are kept |
| Dasa.ThermoBase | scripts/reformat_dasa.py:257-282 | fails exactly when no result column exists; keeps rows; id columns present |
| Dasa.ThermoPrepared | scripts/reformat_dasa.py:286-296 | fails exactly when sample_id or test_kit is present; keeps rows and columns |
| Dasa.NotAssigned | scripts/reformat_dasa.py:316-320 | the five placeholders become '', everything else is unchanged |
| Dasa.NotAssignedIdempotent | scripts/reformat_dasa.py:316-320 | clearing twice is clearing once |
| Dasa.BlankNegatives | scripts/reformat_dasa.py:325-331 | the loop blanks row by row, keeping columns and row count |
| Dasa.BlankNegativesCells | scripts/reformat_dasa.py:325-331 | exactly the Gene N, ORF and S cells of NAO DETECTADO rows become '' |
| Dasa.BlankNegativesIdempotent | scripts/reformat_dasa.py:325-331 | blanking twice is blanking once |
| Dasa.ThermoOthersLong | scripts/reformat_dasa.py:312-314 | the other calls are long names |
| Dasa.ThermoOthersApart | scripts/reformat_dasa.py:312-331 | the other calls are none of the columns the reshape reads |
| Dasa.ThermoReshape | scripts/reformat_dasa.py:312-331 | the reshape fails exactly when cidade_norm or uf_norm is missing |
| Dasa.ReshapeWith | scripts/reformat_dasa.py:312-331 | the same for any list of other calls |
| Dasa.MapColumnCell | scripts/reformat_dasa.py:322-323 | mapping one column changes only that column |
| Dasa.ReshapePlacesCell | scripts/reformat_dasa.py:312-323 | the other calls are 'Not tested' and the places are cleared |
| Dasa.ReshapeCells | scripts/reformat_dasa.py:312-331 | the reshape keeps the sample id, clears places, sets calls and blanks negative Cts |
| Dasa.ReshapeFour | scripts/reformat_dasa.py:312-331 | the four cells the reshape writes, for any list of other calls |
| Dasa.ThermoReshapeCells | scripts/reformat_dasa.py:312-331 | the four cells for Thermo Fisher's own list |
| Dasa.ThermoPreparedCells | scripts/reformat_dasa.py:286-296 | the preparation keeps every cell but the inserted and blank columns |
| Dasa.ThermoIdsApart | scripts/reformat_dasa.py:279-296 | the id columns are not written by the preparation |
| Dasa.ThermoFixed | scripts/reformat_dasa.py:253-333 | without a cache, a Thermo Fisher file is the reshape of its prepared rows with ids |
| Dasa.ThermoPreparedIds | scripts/reformat_dasa.py:286-296 | the prepared row keeps the base row's id and result cells |
| Dasa.ThermoWritten | scripts/reformat_dasa.py:299-331 | the written row hashes the base row's id cells and blanks its Cts when negative |
| Dasa.ThermoIdBeforeBlanking | scripts/reformat_dasa.py:299-331 | the sample id is the full digest of the Ct strings before blanking |
| Dasa.UnknownFileFails | scripts/reformat_dasa.py:336-338 | an unknown layout is an exit in fix_datatable and in the file step |
| Dasa.FullyCachedSkipped | scripts/reformat_dasa.py:304-370 | a fully cached file is empty and leaves dfT as it was |
| Dasa.LabFrame | scripts/reformat_dasa.py:372-373 | lab_id is inserted, rows kept; an existing lab_id column is refused |
| Dasa.FileStep | scripts/reformat_dasa.py:367-387 | a preparation error propagates; an empty frame leaves dfT as it was; otherwise the result is dfT's rows followed by the lab frame's, with the union of the columns |
| Dasa.RunKeepsCache | scripts/reformat_dasa.py:358-387 | the cache rows survive the whole file loop |
| Dasa.UnknownFileStopsRun | scripts/reformat_dasa.py:336-338 | a file of unknown layout anywhere ends the whole run |
| Dasa.DetectionWords | scripts/reformat_dasa.py:445-456 | DASA's check_detection answers Detected, Not detected or '' |
| Dasa.DetectedCells | scripts/reformat_dasa.py:459-465 | the S-gene step keeps sex and writes DASA's words |
| Dasa.WrittenFrom | scripts/reformat_dasa.py:481-504 | every written row is the projection of a row of the table |
| Dasa.FinalizedCells | scripts/reformat_dasa.py:441-504 | the written sex has at most one letter, and geneS_detection is in DASA's words |
| Dasa.Finalized | scripts/reformat_dasa.py:404-504 | the written table and the duplicate report have exactly the key columns, and the table is sorted by lab, test and date |
| Dasa.FinalizedSex | scripts/reformat_dasa.py:404-504 | with sex uncorrected, every written sex is the first character of some input row's sex |
| Dasa.FinalizedMeaning | scripts/reformat_dasa.py:404-504 | the written table has exactly key_cols, no two equal rows, is sorted, with one-letter sex codes |
| Dasa.CorrectionsNeedColumns | scripts/reformat_dasa.py:404-408 | the correction pass stops the run exactly when the catalog names a column dfT lacks |
| Dasa.ResolveGenes | scripts/reformat_dasa.py:210-234 | the row loop equals the gene fold |
| Dasa.BuildPanelRecord | scripts/reformat_dasa.py:196-245 | one request's dict equals the record function |
| Dasa.PanelRows | scripts/reformat_dasa.py:195-245 | the request loop equals the panel frame |
| Dasa.BlankRows | scripts/reformat_dasa.py:325-331 | the blanking loop equals the blanking function |
| Dasa.FixDatatable | scripts/reformat_dasa.py:157-339 | an unknown layout exits with the unknown-format code; a Thermo file without a result column exits with the no-result-column code |
| Dasa.FixTable | scripts/reformat_dasa.py:157-339 | fix_datatable with its loops equals the specification function |
| Dasa.Run | scripts/reformat_dasa.py:358-387 | the file loop equals the fold, and the accumulator holds its result |
| Dasa.Reformatted | scripts/reformat_dasa.py:93-504 | a whole run that succeeds writes a table and a duplicate report with exactly the key columns, the table sorted by lab, test and date |
| Dasa.Reformat | scripts/reformat_dasa.py:93-504 | the script equals the catalogs, the file fold, the corrections and the aggregation |
| Sabin.KitOf | scripts/reformat_sabin.py:195 | covid_antigen exactly for COVIDECO, else covid |
| Sabin.WithKits | scripts/reformat_sabin.py:195 | every row's kit comes from its Parametro, other cells kept |
| Sabin.Prepared | scripts/reformat_sabin.py:179-224 | fails exactly on a missing typed column (KeyError naming it) or an existing sample_id/test_kit; id columns present, rows kept |
| Sabin.PrepareWith | scripts/reformat_sabin.py:179-224 | the same for any lists of typed, id and blank columns |
| Sabin.ListsApart | scripts/reformat_sabin.py:179-224 | the id columns are typed and none is written by the preparation |
| Sabin.PrepareWithCell | scripts/reformat_sabin.py:193-224 | a prepared cell is '' for a blank column, the kit for test_kit, else the file's cell |
| Sabin.AddMissingCell | scripts/reformat_sabin.py:208-211 | a column already there keeps its cell |
| Sabin.PreparedIdCells | scripts/reformat_sabin.py:179-211 | the id cells are the file's |
| Sabin.PreparedKit | scripts/reformat_sabin.py:195 | each row's kit is KitOf its Parametro |
| Sabin.PreparedUnique | scripts/reformat_sabin.py:198-211 | the unique_id of a prepared row is the file row's |
| Sabin.PreparedFlua | scripts/reformat_sabin.py:193-224 | the FLUA call is not written by the preparation |
| Sabin.FixDatatable | scripts/reformat_sabin.py:172-270 | no OS column: the table comes back unchanged; a failing preparation is an error |
| Sabin.FixPrepared | scripts/reformat_sabin.py:227-270 | without a cache the step after preparation never fails, and it never gives more rows than the prepared file |
| Sabin.OtherResultColsApart | scripts/reformat_sabin.py:247-264 | the NA columns are not sample_id, test_kit, id or blank columns |
| Sabin.NoCachePrepared | scripts/reformat_sabin.py:227-264 | without a cache every prepared row comes out with its id, its kit and NA calls |
| Sabin.NoCacheAllRows | scripts/reformat_sabin.py:167-270 | without a cache every row of the file comes out with its 16-character id and NA calls |
| Sabin.PartialHitPrepared | scripts/reformat_sabin.py:244-270 | as written, a partial hit returns the whole prepared frame with ids |
| Sabin.PartialHitReturnsAll | scripts/reformat_sabin.py:266-270 | as written, a partial hit returns every row, cached ones included, and no NA calls |
| Sabin.CachedRowWrittenAgain | scripts/reformat_sabin.py:266-270 | as written, a cached row of a two-row file is output again |
| Sabin.KeepsNewShape | scripts/reformat_sabin.py:247-264 | corrected: the new rows are marked NA |
| Sabin.KeepsOnlyNew | scripts/reformat_sabin.py:247-264 | corrected: every row returned has an id dfT lacks |
| Sabin.KeepsAllNew | scripts/reformat_sabin.py:247-264 | corrected: every id of the file that dfT lacks is returned |
| Sabin.KeepsNewMarked | scripts/reformat_sabin.py:247-264 | corrected: every row returned has NA for every pathogen but SC2 |
| Sabin.PartialHitKeepsNew | scripts/reformat_sabin.py:227-264 | corrected: a partial hit returns exactly the file's new rows, marked |
| Sabin.FullyCachedSkipped | scripts/reformat_sabin.py:242-244 | a fully cached file gives the empty frame |
| Sabin.FullyCachedFileSkipped | scripts/reformat_sabin.py:307-310 | and the file loop leaves dfT as it was |
| Sabin.Renamed | scripts/reformat_sabin.py:312-313 | lab_id is inserted; an existing lab_id column is refused |
| Sabin.CorrectionsNeedColumns | scripts/reformat_sabin.py:321-325 | the corrections stop the run exactly when the catalog names a column the frame lacks |
| Sabin.LabFrameSex | scripts/reformat_sabin.py:312-350 | with sex neither renamed nor corrected, each row's sex in the lab frame is the first character of the file's sex cell |
| Sabin.LabFrameMeaning | scripts/reformat_sabin.py:312-350 | the frame keeps its rows, each with a sex code of at most one letter |
| Sabin.FileStep | scripts/reformat_sabin.py:307-359 | a preparation error propagates; an empty frame leaves dfT as it was; otherwise the result is dfT's rows followed by the lab frame's, with the union of the columns |
| Sabin.RunKeepsCache | scripts/reformat_sabin.py:293-359 | the cache rows survive the whole file loop |
| Sabin.Finalized | scripts/reformat_sabin.py:369-452 | the written table and the duplicate report have exactly the key columns, and the table is sorted by lab, test and date |
| Sabin.FinalizedMeaning | scripts/reformat_sabin.py:369-452 | the written table has exactly key_cols, no two equal rows, and is sorted; it fails exactly when date_testing or a key column is missing |
| Sabin.PathogenColumns | scripts/reformat_sabin.py:247-264 | the result columns follow the pathogens, SC2 first |
| Sabin.ResultColsOf | scripts/reformat_sabin.py:247-264 | the result columns of a pathogen list, in order |
| Sabin.NotTestedColsAll | scripts/reformat_sabin.py:247-264 | without SC2 every pathogen's column is marked |
| Sabin.NotTestedPathogens | scripts/reformat_sabin.py:247-264 | the loop over all pathogens marks exactly the columns after SC2's |
| Sabin.MarkStep | scripts/reformat_sabin.py:247-264 | one turn of the NA loop |
| Sabin.MarkNotTested | scripts/reformat_sabin.py:247-264 | the loop sets every pathogen but SC2 to NA |
| Sabin.FixTable | scripts/reformat_sabin.py:167-270 | fix_datatable with its loop equals the specification function |
| Sabin.Run | scripts/reformat_sabin.py:293-359 | the file loop equals the fold, and the accumulator holds its result |
| Sabin.Reformatted | scripts/reformat_sabin.py:93-452 | a whole run that succeeds writes a table and a duplicate report with exactly the key columns, the table sorted by lab, test and date |
| Sabin.Reformat | scripts/reformat_sabin.py:93-452 | the script equals the catalogs, the file fold and the aggregation, with the correction of the Findings |

## Left out

- DbMolecular.LabFrameSex, Sabin.LabFrameSex, Fleury.FinalizedSex, Dasa.FinalizedSex: stated for files whose sex cells no catalog entry corrects; the two LabFrameSex lemmas also assume that no rename touches the sex column. Where the catalog corrects a sex cell, the first character is taken from the corrected value, which Catalog.Corrected and Aggregate.FixSex describe separately.
- Reading and writing files is left out: `load_table`, the Excel, CSV and Parquet readers, `os.listdir` and the folder and extension filters, `argparse`, `to_csv`, `print`, `tqdm` and the timing code. The file loop is a fold over a given list of tables in the order `sorted(os.listdir(...))` gives. Writing `duplicates.tsv` is modelled as the report table that is returned.
- SHA-1 is a foreign call. It is a function parameter returning 40 hex digits. The model states only what follows from that: determinism and the 16-character prefix.
- Date parsing, epiweeks and ages are left out. `pd.to_datetime`, the `epiweeks` library, `timedelta64` years, `np.round` on ages and `to_numeric(...).fillna(-1)` are floating-point and calendar code. The parsed date is a parameter returning an `Option`, and the epiweek is a function parameter. The birthdate-to-age loop of every script is not modelled.
- Float arithmetic in the Ct rescale is left out. The Ct is computed in hundredths with integer arithmetic. The rounding to two decimals sends exact decimal ties to the even neighbour, as `np.round` does. The two can differ only where the binary float of the Ct is not an exact tie, so `np.round` sees a value just above or below the half.
- Ct.Rescale, Ct.DecimalParts, Ct.CheckDetection: `float()` is modelled as digits with at most one dot. Python also accepts surrounding whitespace, a sign, an exponent, underscores between digits, non-ASCII Unicode decimal digits, and inf or nan. So " 25.3" and "-25.3" rescale in the scripts but are a ValueError in the model, and `check_detection("1e-05")` is positive in the scripts but '' in the model.
- The type coercions `astype('int16')`, `astype(str)` and `fillna('')` are not modelled. Every cell is a string, and an absent cell reads as ''.
- Sabin.PreparedIdCells, Sabin.PreparedUnique: `DataAtendimento` is an id column that `pd.to_datetime` converts before the hashing. The scripts therefore hash the rendering pandas gives the parsed date, while the model hashes the file's own text.
- Dasa.ParseInt: `int()` is modelled as an optional sign followed by ASCII digits. Python also accepts surrounding whitespace, underscores between digits, and non-ASCII Unicode decimal digits such as '٣'.
- Iteration orders are fixed where pandas or Python leave them open:
  - `groupby` visits keys in sorted string order.
  - `list(set(...))[0]` is taken to be the first row's value.
  - `unique_cols = list(set(columns))` keeps the column order.
  - `all_ids` may come in any order, stated as a precondition.
- `sort_values` is not stable. The model sorts stably, so rows with equal keys may come out in a different order than pandas gives.
- Console-only checks are left out. The `found` list that reports unknown targets, and the counts printed by `deduplicate`, only print.
- Dasa.GeneFoldCall: the `ct_value != ''` branch has no else-case in the model. `int()` never returns '', and an empty `positivo` raises ValueError first (`Dasa.EmptyIsNoInt`), so that branch cannot run.
- Fleury.FixAge: only its three cases are stated. It is not idempotent: "5D3A" becomes "5D3", which becomes "0". So no idempotence lemma is claimed.
- HLAGyn.Prepared, DbMolecular.Prepared: only the presence of the id columns and the row count are stated. The cell-level facts the hashing needs are stated separately (`HLAGyn.CovidIds`, `Sabin.PreparedUnique`).
- DbMolecular.FixDatatable, HLAGyn.FixDatatable: only the unknown-layout case is stated on the function itself. The other cases are the separate lemmas in the table.
- Dasa.FixDatatable, Fleury.FixDatatable, Sabin.FixPrepared, HLAGyn.Deduplicated: the function's own contract states only its error cases and bounds. What a file turns into is stated by the lemmas in the table (`Dasa.ThermoFixed`, `Fleury.RequestCodes`, `Sabin.NoCachePrepared`, `Sabin.KeepsOnlyNew`, `HLAGyn.PanelOneRecordPerRow`, `HLAGyn.CovidIds` and the others).
- Identity.UniqueId: the contract states that every id cell is in the unique_id, not the order in which they are run together. Equal id cells giving equal ids is `Identity.SameIdCellsSameUnique`.
- Identity.Dedup, Pipeline.Fold, Catalog.Lookup: the contracts state bounds and where results and errors come from. The exact kept rows, the cache prefix and the catalog's answers are `Identity.DedupKeeps`, `Pipeline.FoldKeepsPrefix` and `Catalog.CorrectionsLookup`.
- Fleury.ScanCall, HLAGyn.CallFold: the contracts state only where a 'Pos' or 'Neg' can come from. The exact call is `Fleury.ScanFindsPositive` and `HLAGyn.UpgradeResolves`.
- Dasa.GeneFold, Dasa.PanelRecord, Fleury.PanelRecord, HLAGyn.Calls, HLAGyn.PanelRecord, DbMolecular.PainelRecord, DbMolecular.ThermoRecord, DbMolecular.CovidRecord: the contracts state which keys a record holds and when it fails. The values of the calls and Ct cells are the lemmas beside them (`Dasa.PanelCall`, `Fleury.PanelCall`, `HLAGyn.PanelRecordMeaning`, `DbMolecular.PainelTargets`, `DbMolecular.ThermoRecordCts`, `DbMolecular.CovidRecordCts`).
- Dasa.Reformatted, Fleury.Reformatted, Sabin.Reformatted, HLAGyn.Reformatted, DbMolecular.Reformatted: the whole-run contracts state only the shape and the order of the output. The rest is stated by the per-lab `FinalizedMeaning`, `RunKeepsCache` and `Aggregate.FinalizeMeaning` lemmas.
- Tables.Rename: when two columns are renamed to one name, pandas keeps both columns. A row is a map, so the model keeps one cell, the later column's.

## Findings

| source | as written | input that shows it | evidently intended | confidence | as-written member | corrected member |
|---|---|---|---|---|---|---|
| scripts/reformat_db.py:300-304 | a target without a Ct sets its pathogen's call to NA; the `!= 'DETECTADO'` guard compares with a value the script never stores | a panel request with NGRV at Ct 25.0 followed by SGRV without a Ct: SC2 ends NA | a pathogen stays Pos once one of its targets detects it | high, not executed | DbMolecular.SecondTargetLosesPositive | DbMolecular.StickyPositive |
| scripts/reformat_db.py:593-627 | the file loop has no `if df.empty: continue`, so a fully cached file reaches `df['sex']` with a frame holding only lab_id | any file whose every sample id is already in the cache: KeyError('sex') ends the run | a fully cached file is skipped, as the other reformatters do | high, not executed | DbMolecular.FullyCachedFileFails | DbMolecular.FullyCachedFileSkipped |
| scripts/reformat_hlagyn.py:385 | Detectado upgrades only from 'NA' or 'Não Detectado', but the stored call is 'Neg', so a Neg is never upgraded | a panel row with Influenza A 'Não Detectado' and Influenza H1N1 'Detectado': FLUA is Neg | any Detectado target makes the pathogen Pos | high, not executed | HLAGyn.NegBlocksLaterDetectado | HLAGyn.UpgradeResolves |
| scripts/reformat_fleury.py:141-142 | the partial-hit report names `test_name`, which deduplicate never binds | a file with one cached and one new request, with a cache: NameError | the new requests are kept and reshaped | high, not executed | Fleury.PartialHitFails | Fleury.PartialHitKeepsNew |
| scripts/reformat_sabin.py:266-270 | on a partial cache hit fix_datatable returns dfN, the whole prepared file, instead of the filtered and marked dfL | a two-row file whose first row is cached: both rows are output again, without the NA calls | only the new rows are returned, with every pathogen but SC2 NA | high, not executed | Sabin.CachedRowWrittenAgain | Sabin.PartialHitKeepsNew |
