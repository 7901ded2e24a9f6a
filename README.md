# doltcli core, modelled in Dafny

doltcli is a Python wrapper around the `dolt` command-line tool, a version-controlled SQL
database. The `Dolt` class (`doltcli/dolt.py`) stands for one repository directory. Each
of its commands does three things:

- checks its keyword arguments;
- grows an argument vector, runs the tool once (or a few times) in the repository, and
  raises `DoltException` on a non-zero exit;
- for some commands, parses the tool's text output (`status`, `ls --verbose`,
  `remote --verbose`, `config --list`) into value records.

The module `doltcli/utils.py` adds the write pipeline (`write_file`, `write_columns`,
`write_rows`, `_import_helper`, `_get_import_mode_and_flags`) and a few value helpers
(`to_list`, `columns_to_rows`, `rows_to_columns`, the as-of query).

The model keeps the source's own form:

- **The process boundary** is the class `Process.Shell`. It holds:
  - the log of every call made (`issued`);
  - the files this layer can see (`files`);
  - the tool itself, as an oracle `tool(history, call)` that answers each call given
    every call made before it.

  `Shell.Run` is `_execute`: it appends the call to the log, writes stdout to the
  redirect file when there is one, and returns stdout, the file's path, or the
  `DoltException` carrying the normalised command line.
- **The repository handle** is the class `Repo.Dolt`. Each command is a method that
  modifies the shell, and each method is proved against a specification function:
  - a pure argument builder in module `Commands` gives the vector, or the `ValueError`
    the source raises, with the checks in the source's order;
  - for commands that issue several calls (`add`, `merge`, `sql`, the imports) and for
    `status`, which they chain, a trace function gives the whole new call log, the new
    files and the result from the old ones.
- **What the tool's parser reads back.** The lemmas about the vectors say what a
  command-line parser reads from each vector: words, switches, and option values
  (module `Argv`).
- **Output parsers** (`StatusParser`, `Listing`, `CommitLog`) are loops, written as
  methods with invariants. Each is proved equal to a fold written as a function, and the
  properties are proved about the fold, including round trips from a listing printed the
  way the tool prints it.
- **Commits.** `Commit` is a class whose `append_parent` updates its parents in place;
  `parse_dolt_log_table` builds fresh commit objects and appends parents to the ones
  already read.
- **Source quirks** are modelled as written, each stated by a lemma or by its member's contract:
  - `diff(schema=True)` gives the tool the characters of `--schema` one by one;
  - `is_merge` tests for a tuple, which the log parser never builds;
  - the default merge message names the branches the other way round;
  - a "System" header on the first line of `ls` hides the system tables.

Values the source takes from the environment are parameters:

- the results of the SQL queries `_get_branches` reads (`Merge` takes the branch rows);
- the fresh temporary directory of `sql` and the temporary path of `_import_helper`;
- the CSV text the `DictWriter` of `write_columns` and `write_rows` produces.

## Model

| member | source | states |
|---|---|---|
| Process.CommandLineNormalised | doltcli/dolt.py:64 | the logged command line holds the same words as the arguments joined by spaces, and it is its own words joined by single spaces |
| Process.Answer | doltcli/dolt.py:60-81 | `_execute` succeeds exactly when the tool exits 0; it then returns the outfile's path when there is one, and stdout otherwise; a failure is the `DoltException` of the normalised command line, the stdout (empty when redirected), the stderr and the exit code |
| Process.Shell.constructor | doltcli/dolt.py:60-81 | a fresh boundary has an empty call log and the given files |
| Process.Shell.Run | doltcli/dolt.py:60-81 | one call is appended to the log; the redirect file, when given, holds stdout; the result is `Answer` |
| Process.Shell.Write | doltcli/utils.py:87-88 | writing a file changes that file only and runs nothing |
| Process.Shell.RemoveIfExists | doltcli/utils.py:238-239 | the file is gone, every other file and the log are unchanged |
| DoltTypes.ODict.Put | doltcli/dolt.py:381-383 | `d[k] = v`: the mapping is updated, a new key goes last and an existing key keeps its place, keeping keys and map in step |
| DoltTypes.EmptyDict | doltcli/dolt.py:363-364 | an empty dictionary has no keys |
| Text.LStrip | doltcli/dolt.py:373 | `lstrip` drops exactly the leading whitespace: the result is a suffix not starting with whitespace |
| Text.Strip | doltcli/dolt.py:1302 | `strip` keeps the middle of the string, where `lstrip` stops, with only whitespace before and after it, and the result neither starts nor ends with whitespace |
| Text.Split | doltcli/dolt.py:366 | `split(sep)` returns at least one piece |
| Text.JoinSplit | doltcli/dolt.py:368 | joining the split lines back with the separator gives the original output |
| Text.SplitPiecesFree | doltcli/dolt.py:1256 | no piece returned by `split` contains the separator |
| Text.SplitJoin | doltcli/utils.py:226-227 | parts free of a one-character separator, joined with it, split back into the same parts |
| Text.SplitWs | doltcli/dolt.py:1294 | `split()` gives non-empty pieces without whitespace |
| Text.SplitWsJoin | doltcli/dolt.py:870 | words without whitespace joined by single spaces split back into the same words |
| Text.ParseInt | doltcli/dolt.py:1295 | `int(token)` succeeds exactly on an optional sign followed by one or more decimal digits, and gives their value, negated after a minus sign |
| Text.ParseIntOfString | doltcli/dolt.py:1295 | `int(str(n)) == n` |
| Text.NatToStringValue | doltcli/dolt.py:670 | `str(n)` of a natural number is its decimal digits |
| Convert.ToListIdempotent | doltcli/utils.py:276-277 | `to_list` is idempotent, maps only `None` to `None`, and wraps a single name in a non-empty list |
| Convert.ReadTableAsOfQuery | doltcli/utils.py:32-34 | the query selects all of the table, with the `AS OF` clause exactly when a revision is given |
| Convert.Suffixed | doltcli/utils.py:34 | a suffixed query starts with the base and ends with the suffix |
| Convert.ModeNames | doltcli/utils.py:53-59 | the four import-mode keys and the modes determine each other |
| Convert.ImportFlagsShape | doltcli/utils.py:54-59 | each mode's flags end with its selecting switch; only forced creation adds `-f` |
| Convert.ImportModeOf | doltcli/utils.py:242-254 | a given mode must be a key (else `ValueError`) and is kept; without one, a table among the listed names is updated and any other is created |
| Convert.ColumnsToRows | doltcli/utils.py:257-264 | the nested loop over an array of rows computes `RowsOfColumns` |
| Convert.FillColumn | doltcli/utils.py:260-262 | the inner loop writes every value of one column into its row |
| Convert.FilledMeaning | doltcli/utils.py:257-264 | each row maps every column that has a value at that position to that value, whatever the column order |
| Convert.RowsToColumns | doltcli/utils.py:267-273 | the loop computes `ColumnsOfRows` |
| Convert.AppendRow | doltcli/utils.py:270-271 | one row's items appended to the lists of their keys |
| Convert.WithRowAt | doltcli/utils.py:270-271 | one row appends its value to exactly the lists of its own keys |
| Convert.ColumnsOfRowsMeaning | doltcli/utils.py:267-273 | the keys produced are those of the rows, and each key's list is its column in row order |
| Convert.ColumnFull | doltcli/utils.py:267-273 | a key every row has gives one value per row, the j-th from row j |
| Convert.UniformRowsColumn | doltcli/utils.py:267-273 | rows with one key set give exactly those columns, one value per row |
| Convert.RowsRoundTrip | doltcli/utils.py:257-273 | rows with one common non-empty key set are rebuilt from their columns |
| Convert.ColumnsRoundTrip | doltcli/utils.py:257-273 | columns of one common non-zero length are rebuilt from their rows |
| Convert.RowsOfUniform | doltcli/utils.py:257-264 | columns of one length give one row per position holding every column's value there |
| Listing.TableOfLine | doltcli/dolt.py:1294-1295 | a table line with fewer than three fields is an `IndexError`; it succeeds exactly when the third field is an integer, giving a user table with a root and a row count |
| Listing.TableOfLineRoundTrip | doltcli/dolt.py:1294-1295 | a line laid out as name, root and row count reads back as that table |
| Listing.ParseLs | doltcli/dolt.py:1278-1304 | the two loops of `ls` compute `LsOf` |
| Listing.CollectUserTables | doltcli/dolt.py:1285-1295 | the first loop collects the user tables before the first "System" line and reports where that line is |
| Listing.CollectSystemTables | doltcli/dolt.py:1297-1302 | the second loop lists one system table per line not starting with "System" |
| Listing.FirstMarker | doltcli/dolt.py:1288-1290 | the loop breaks at the first "System" line and no earlier |
| Listing.MarkerOnFirstLineHidesSystemTables | doltcli/dolt.py:1288-1298 | a "System" header at position 0 makes `if system_pos` false: the listing is empty |
| Listing.LsShape | doltcli/dolt.py:1278-1304 | every table listed is a user table with root and row count, or a system table with neither |
| Listing.SystemTablesMeaning | doltcli/dolt.py:1297-1302 | the system tables come one per line not starting with "System", each named by the stripped line |
| Listing.EmptyLineListsEmptyName | doltcli/dolt.py:1298-1302 | an empty line after the header lists a system table with an empty name |
| Listing.ParseRemotes | doltcli/dolt.py:862-873 | the listing loop stops at the first empty line and computes `RemotesOf` |
| Listing.RemoteLineFields | doltcli/dolt.py:870-871 | a remote's line splits into its name and URL |
| Listing.RemotesRoundTrip | doltcli/dolt.py:862-873 | remotes printed one per line and followed by an empty line read back unchanged |
| Listing.ParseConfig | doltcli/dolt.py:1253-1260 | the parsing loop computes `ConfigOf` |
| Listing.ConfigFailureSticks | doltcli/dolt.py:1255-1258 | a line without " = " after an "=" raises, and nothing after it changes the outcome |
| Listing.ConfigLineSplits | doltcli/dolt.py:1256-1257 | a setting printed as `name = value` splits back into the name and the value |
| Listing.ConfigRoundTrip | doltcli/dolt.py:1253-1260 | settings printed one per line read back as their map, the last pair for a name winning |
| StatusParser.EntryName | doltcli/dolt.py:381-383 | an entry line without a colon raises `IndexError` |
| StatusParser.Events | doltcli/dolt.py:372-385 | one event per line, each the line's classification |
| StatusParser.ParseStatus | doltcli/dolt.py:366-387 | "clean" anywhere gives a clean status; otherwise the scan; equals `StatusOf` |
| StatusParser.ScanLines | doltcli/dolt.py:371-387 | the three-state loop computes `Scan` |
| StatusParser.FailureSticks | doltcli/dolt.py:372-385 | once a line raises, the later lines change nothing |
| StatusParser.RunFails | doltcli/dolt.py:372-385 | the scan fails exactly when some entry line has no colon |
| StatusParser.RunStaged | doltcli/dolt.py:374-379 | the staged flag at the end is the one the last section header set |
| StatusParser.RunMeaning | doltcli/dolt.py:380-383 | a table is recorded as modified (or new) exactly when such a line names it, mapped to the staged flag in force at its last such line |
| CommitLog.AppendParentTo | doltcli/dolt.py:115-123 | a tuple is refused; a single parent becomes a two-element list and the commit a merge; anything else is unchanged; no other attribute changes |
| CommitLog.Commit.constructor | doltcli/dolt.py:103-113 | a commit object holds the attributes it is built with |
| CommitLog.Commit.AppendParent | doltcli/dolt.py:115-123 | in place: a tuple raises `ValueError("Already has a merge parent set")` and changes nothing; otherwise the new attributes are `AppendParentTo` |
| CommitLog.WithClauses | doltcli/dolt.py:126-154 | the log query is the base, then the filter when given, then the ordering, then the limit when given, and nothing else: its length is the sum of theirs |
| CommitLog.FirstMissing | doltcli/dolt.py:157-175 | the first missing key is one the row lacks; none means the row has them all |
| CommitLog.ParseDoltLogTable | doltcli/dolt.py:157-175 | fails exactly as `LogFold` does; otherwise returns fresh commit objects in first-appearance order mirroring the fold's state |
| CommitLog.IngestRow | doltcli/dolt.py:161-174 | one row read into the commit objects as `LogStep` says |
| CommitLog.AddNew | doltcli/dolt.py:164-174 | a new hash gets a fresh commit object, added last |
| CommitLog.AppendToKnown | doltcli/dolt.py:161-163 | a known hash gets the parent appended in place |
| CommitLog.FoldFailureSticks | doltcli/dolt.py:159-175 | once a row fails the fold, later rows change nothing |
| CommitLog.DedupMeaning | doltcli/dolt.py:159-175 | the order keeps each hash once, and exactly the hashes present |
| CommitLog.StepResult | doltcli/dolt.py:161-174 | an accepted row has both hashes; a known hash appends a parent, a new one adds a commit |
| CommitLog.LogFoldMeaning | doltcli/dolt.py:157-175 | the fold yields the hashes in first-appearance order and each commit's parents and merge flag as its rows give them, with its date, committer, email and message taken from the first row of its hash |
| CommitLog.FirstRowMeaning | doltcli/dolt.py:158-172 | the row a commit's details come from exists exactly when some row names the hash, and it is the lowest-indexed such row |
| CommitLog.AppendKeepsCommitOk | doltcli/dolt.py:115-123 | a further parent row turns the commit of parents `ps` into that of `ps + [p]` |
| CommitLog.OrderMeaning | doltcli/dolt.py:157-175 | the order holds each hash once, exactly the rows' hashes, and they are the map's keys |
| CommitLog.NeverTuple | doltcli/dolt.py:112-123 | the fold never builds a tuple of parents |
| CommitLog.ParsedNeverMerge | doltcli/dolt.py:112-113 | `is_merge` is false for every parsed commit, merge commits included |
| CommitLog.FoldSucceeds | doltcli/dolt.py:157-175 | rows carrying all six columns are always read without error |
| CommitLog.FoldFailure | doltcli/dolt.py:157-175 | a failed fold is a `KeyError` naming a column some row lacks |
| Commands.ResetArgs | doltcli/dolt.py:398-435 | each of the three `ValueError`s exactly when its condition holds, in the source's order |
| Commands.ResetReads | doltcli/dolt.py:398-435 | a reset is either of the whole working set, hard or by default soft, or of exactly the named tables |
| Commands.CommitReads | doltcli/dolt.py:437-463 | the message (empty when none) is the value of `-m`, whatever it says; `--allow-empty` and `--date` as asked |
| Commands.MergeReads | doltcli/dolt.py:484-490 | the merge vector reads back as the branch with `--squash` when asked |
| Commands.MergeMessage | doltcli/dolt.py:509-510 | a given message is used unchanged; the default is "Merged", the current branch, " into " and the merged branch, in that order and nothing else |
| Commands.MergeMessageReversed | doltcli/dolt.py:509-510 | for two different branch names the default message is never the one naming them the right way round ("Merged <branch> into <current>") |
| Commands.DiffArgs | doltcli/dolt.py:660-662 | refused with the `ValueError` exactly when two of data, schema and summary are set |
| Commands.CharsRender | doltcli/dolt.py:675-676 | `list.extend` of a string adds one argument per character |
| Commands.DiffReads | doltcli/dolt.py:664-689 | without schema, commits then tables are operands, `--where`/`--limit` only for a data diff, switches as asked |
| Commands.DiffSchemaQuirk | doltcli/dolt.py:675-676 | with schema, the eight arguments after `diff` are the characters of "--schema": the switch never reaches the tool |
| Commands.BlameReads | doltcli/dolt.py:691-704 | the revision when given, then the table, are the operands |
| Commands.BranchArgs | doltcli/dolt.py:728-783 | each of the five refusals and the bare listing exactly when the source's conditions hold |
| Commands.BranchCreates | doltcli/dolt.py:747-751 | a name without a switch creates the branch |
| Commands.BranchCreateReads | doltcli/dolt.py:747-751 | creating reads back as the name then the start point, with `--force` as asked |
| Commands.RelocationReads | doltcli/dolt.py:753-775 | copying or moving: the switch, then the branch when given and the new name |
| Commands.BranchDeleteReads | doltcli/dolt.py:762-766 | deleting reads back as `--delete` and the branch |
| Commands.CheckoutArgs | doltcli/dolt.py:823-824 | refused exactly when both tables and a branch are given |
| Commands.CheckoutBranchReads | doltcli/dolt.py:827-839 | the branch is `-b`'s value when created and an operand otherwise; the start point follows; the upstream is `--track`'s value |
| Commands.CheckoutTablesReads | doltcli/dolt.py:834-839 | all table names form one operand |
| Commands.RemoteArgs | doltcli/dolt.py:843-887 | lists exactly without add and remove; each refusal exactly on its condition; every vector starts `remote --verbose` |
| Commands.RemoteAddReads | doltcli/dolt.py:882-885 | adding reads back as `add`, the name and the URL |
| Commands.RemoteRemoveReads | doltcli/dolt.py:875-880 | removing reads back as `remove` and the name |
| Commands.PushReads | doltcli/dolt.py:889-919 | the remote then the refspec are the operands; switches as asked |
| Commands.PullReads | doltcli/dolt.py:921-932 | the remote, then the branch when given |
| Commands.FetchReads | doltcli/dolt.py:934-957 | the remote, then every refspec as its own operand; `--force` as asked |
| Commands.LsReads | doltcli/dolt.py:1270-1276 | `ls --verbose` with `--all` and `--system` as asked, and no operand |
| Commands.ConfigArgs | doltcli/dolt.py:1223-1251 | each of the five refusals exactly when its condition holds, in the source's order |
| Commands.ConfigReads | doltcli/dolt.py:1227-1251 | an accepted call reads back as the scope (global winning), the action, and exactly the operands that action needs |
| Commands.ConfigAccepted | doltcli/dolt.py:1236-1251 | add has a name and value; get and unset have a name and no value |
| Commands.ModeCheck | doltcli/dolt.py:1358-1373 | exactly one mode, and keys for create and replace; each refusal exactly on its condition |
| Commands.SchemaImportArgs | doltcli/dolt.py:1324-1391 | refused exactly as `ModeCheck` refuses |
| Commands.SchemaImportReads | doltcli/dolt.py:1324-1391 | an accepted vector reads back as table and file, the set switches, and the given options, keys comma-joined |
| Commands.TableImportArgs | doltcli/dolt.py:1418-1478 | refused exactly as `ModeCheck` refuses |
| Commands.TableImportReads | doltcli/dolt.py:1418-1478 | an accepted vector reads back as table and file, the mode and other switches, and the given options |
| Commands.TableExportReads | doltcli/dolt.py:1480-1524 | the vector reads back as table and file, `--force`/`--continue` as asked, and the given options |
| Commands.TableMvReads | doltcli/dolt.py:1526-1540 | the old then the new name, `--force` as asked |
| Commands.TableCpReads | doltcli/dolt.py:1542-1566 | the commit when given, then the old and the new name |
| Commands.SqlArgs | doltcli/dolt.py:547-616 | the listing runs first exactly when asked and unobjected; `Incompatible arguments` and the missing-query error exactly on their conditions |
| Commands.SqlRun | doltcli/dolt.py:571-616 | a parser, result file or CSV/JSON format without a query is refused |
| Commands.SqlQueryReads | doltcli/dolt.py:612-616 | a bare query runs once as `sql --query q` and its output is not returned |
| Commands.SqlResultReads | doltcli/dolt.py:571-608 | parser over result file over format; the tool is asked for the query and the format and nothing else |
| Commands.SqlListSavedTwice | doltcli/dolt.py:549-553 | listing alone runs `sql --list-saved` and then the same vector again |
| Commands.CloneDir | doltcli/dolt.py:995-1012 | without directory and URL it raises; without a URL it is the given directory |
| Commands.CloneDirFromUrl | doltcli/dolt.py:995-1012 | with a URL, the directory lies under the new (or working) directory, is named by the URL's last piece, and did not exist; otherwise `DoltDirectoryException` |
| Commands.DbName | doltcli/dolt.py:222-227 | refused with "Invalid DoltHub path" exactly when the path has not exactly two "/" pieces |
| Commands.DbNameOf | doltcli/dolt.py:222-227 | `owner/name` gives `name` |
| Repo.StepsNext | doltcli/dolt.py:514-515 | one more table extends the sequence of adds by one step |
| Repo.AddAtCalls | doltcli/dolt.py:389-396 | a successful add issues the add and then exactly one status |
| Repo.AddsAllPass | doltcli/dolt.py:514-515 | when every add succeeds, one add and one status per table, in table order |
| Repo.AddsStopAtFailure | doltcli/dolt.py:514-515 | the first table whose add raises ends the sequence |
| Repo.BranchOfRow | doltcli/dolt.py:787 | `Branch(**row)` raises `TypeError` unless every column is a field and name and hash are present; the record holds the row's values |
| Repo.BranchesOf | doltcli/dolt.py:787 | one record per row in order, or `TypeError` |
| Repo.GetBranches | doltcli/dolt.py:785-802 | succeeds exactly when every row is a branch and there is exactly one active row; otherwise the version `ValueError` |
| Repo.NamesOf | doltcli/dolt.py:478 | the branch names, in order |
| Repo.MergeRefused | doltcli/dolt.py:474-481 | a dirty working set or unknown branch raises after running only `status` |
| Repo.MergeAnsweredRuns | doltcli/dolt.py:484-490 | an accepted merge runs `merge` after the status |
| Repo.MergeFastForward | doltcli/dolt.py:493-495 | a fast-forward answer ends the merge |
| Repo.MergeConflictAborts | doltcli/dolt.py:497-507 | a conflict answer is followed by exactly `merge --abort` |
| Repo.MergeStagesThenCommits | doltcli/dolt.py:509-517 | otherwise the added then the modified tables are staged one by one, then one commit with the merge message |
| Repo.ScratchFile | doltcli/dolt.py:580 | the temporary result file has a non-empty path |
| Repo.SqlRefusedRunsOnlyListing | doltcli/dolt.py:549-599 | a refused main run leaves only the listing run before it |
| Repo.SqlLeavesNoScratch | doltcli/dolt.py:587-610 | the temporary result file does not outlive the command; other files keep their contents except the caller's result file |
| Repo.SqlReadsMainStdout | doltcli/dolt.py:577-608 | a result read through the temporary file is exactly the main run's stdout |
| Repo.ConfigHelper | doltcli/dolt.py:1210-1260 | a refused combination runs nothing; otherwise one call in `cwd` and the settings parsed from its output |
| Repo.Dolt.constructor | doltcli/dolt.py:260-266 | the handle holds its directory and boundary |
| Repo.Dolt.Execute | doltcli/dolt.py:299-332 | printing and a file together raise and run nothing; otherwise one call in the repository, returning the path or stdout |
| Repo.Dolt.RunVector | doltcli/dolt.py:299-332 | a vector runs once and nothing else changes |
| Repo.Dolt.Status | doltcli/dolt.py:358-387 | one `status` call, its output parsed as `StatusOf` |
| Repo.Dolt.Add | doltcli/dolt.py:389-396 | one add of the listed tables, then one status |
| Repo.Dolt.Reset | doltcli/dolt.py:398-435 | refused as `ResetArgs` says, running nothing; otherwise one run |
| Repo.Dolt.RunOutcome | doltcli/dolt.py:299-332 | a vector whose output is not used runs once |
| Repo.Dolt.Commit | doltcli/dolt.py:437-463 | runs the vector `CommitArgs` gives once |
| Repo.Dolt.Diff | doltcli/dolt.py:633-689 | refused as `DiffArgs` says, running nothing; otherwise one run |
| Repo.Dolt.Blame | doltcli/dolt.py:691-704 | runs the vector `BlameArgs` gives once |
| Repo.Dolt.Branch | doltcli/dolt.py:706-783 | refusals run nothing; a listing runs nothing; otherwise the planned vector runs once |
| Repo.Dolt.Checkout | doltcli/dolt.py:804-841 | refused as `CheckoutArgs` says, running nothing; otherwise one run |
| Repo.Dolt.Remote | doltcli/dolt.py:843-887 | refusals run nothing; a listing returns the parsed remotes; a change runs once |
| Repo.Dolt.Push | doltcli/dolt.py:889-919 | runs the vector `PushArgs` gives once |
| Repo.Dolt.Pull | doltcli/dolt.py:921-932 | runs the vector `PullArgs` gives once |
| Repo.Dolt.Fetch | doltcli/dolt.py:934-957 | runs the vector `FetchArgs` gives once |
| Repo.Dolt.Ls | doltcli/dolt.py:1262-1304 | one `ls --verbose` call, its output parsed as `LsOf` |
| Repo.Dolt.TableMv | doltcli/dolt.py:1526-1540 | runs the vector `TableMvArgs` gives once |
| Repo.Dolt.TableCp | doltcli/dolt.py:1542-1566 | runs the vector `TableCpArgs` gives once |
| Repo.Dolt.Merge | doltcli/dolt.py:465-517 | the branch lookup's errors run nothing; otherwise the call log and outcome are `MergeAt`'s and no file changes |
| Repo.Dolt.MergeRun | doltcli/dolt.py:484-490 | the merge run and what follows it, as `MergeRunAt` says |
| Repo.Dolt.MergeFinish | doltcli/dolt.py:493-517 | fast forward, abort, or stage and commit, as `MergeFinishAt` says |
| Repo.Dolt.AddOne | doltcli/dolt.py:515 | the add of one table and its status, as `AddAt` says |
| Repo.Dolt.AddNext | doltcli/dolt.py:514-515 | one loop step extends `StepsUpTo`; a failure is the final outcome |
| Repo.Dolt.AddEach | doltcli/dolt.py:514-515 | the loop adds each table in turn, stopping at the first failure, as `AddsAt` says |
| Repo.Dolt.Sql | doltcli/dolt.py:519-616 | the log, files and result are `SqlAt`'s: listing first when asked, then the main run with stdout where the sink says |
| Repo.Dolt.SqlMain | doltcli/dolt.py:571-616 | the main run, the result read back, and the temporary file removed |
| Repo.Dolt.ListSaved | doltcli/dolt.py:549-553 | the listing issues exactly one `sql --list-saved` run and leaves the files alone |
| Repo.Dolt.SqlMainRun | doltcli/dolt.py:555-616 | after the listing, the `--execute` clash, the options in the source's order and the main run are `SqlMainAt` of the planned run |
| Repo.Dolt.SqlQuery | doltcli/dolt.py:571-616 | the query, result format and sink chosen by parser, result file or format, then the run, as `SqlRun` plans it |
| Repo.Dolt.SchemaImport | doltcli/dolt.py:1324-1391 | refused as `SchemaImportArgs` says, running nothing; otherwise one run |
| Repo.Dolt.TableImport | doltcli/dolt.py:1418-1478 | refused as `TableImportArgs` says, running nothing; otherwise one run |
| Repo.Dolt.TableExport | doltcli/dolt.py:1480-1524 | runs the vector `TableExportArgs` gives once |
| Writes.TableNames | doltcli/utils.py:247 | the names of the listed tables, in order |
| Writes.ModeRuns | doltcli/utils.py:242-254 | a given mode runs nothing and is the one named; without one exactly one `ls --verbose` runs |
| Writes.ModeFollowsListing | doltcli/utils.py:246-252 | without a mode, a listed table is updated and any other is created |
| Writes.PkReadsBack | doltcli/utils.py:226-227 | the keys read back from the `--pk=` option when no key holds a comma |
| Writes.ImportLeavesNoTemporary | doltcli/utils.py:221-239 | the temporary file never outlives the import, and no other file changes |
| Writes.ImportWithoutCommit | doltcli/utils.py:216-233 | without commit, only the mode's `ls` (if any) and the import run |
| Writes.ImportThenCommit | doltcli/utils.py:231-236 | a committed import runs the import, the add, its status and the commit, in that order |
| Writes.RunThenCommit | doltcli/utils.py:231-236 | a committed run that succeeds issues the import, the add, the status and the commit with the caller's or the default message, and nothing else |
| Writes.ImportMode | doltcli/utils.py:242-254 | the loop over the listing gives `ModeAt` |
| Writes.ImportHelper | doltcli/utils.py:205-239 | the log, the files and the outcome are `ImportAt`'s |
| Writes.ImportBody | doltcli/utils.py:223-236 | the writer, then the import and commit, as `ImportAt` says |
| Writes.ImportRun | doltcli/utils.py:225-236 | the import and, when asked, add and commit, as `ImportRunAt` says |
| Writes.ImportCommand | doltcli/utils.py:222-231 | the import vector is `table import <table>`, the mode's flag, `--pk=` with the keys joined by commas when there are keys, `--continue` when asked, then the file |
| Writes.AddCommit | doltcli/utils.py:234-236 | the add with its status, then the commit with the message, as `AddCommitAt` says |
| Writes.WriteFile | doltcli/utils.py:62-106 | both or neither of path and handle raise and run nothing; otherwise the import of the given file |
| Writes.ColumnsWriter | doltcli/utils.py:133-154 | the writer raises the length error exactly when the columns differ in length |
| Writes.WriteColumns | doltcli/utils.py:109-154 | the import of the columns' CSV text, the length check inside the writer |
| Writes.WriteRows | doltcli/utils.py:157-202 | the import of the rows' CSV text |
| Writes.UnevenColumnsImportNothing | doltcli/utils.py:133-154 | columns of differing lengths raise the length error and run no import |

## Left out

- SQL, JSON and CSV decoding (`read_rows_sql`, `SQL_OUTPUT_PARSERS`, `DictReader`, `DictWriter`): the query results and CSV text are parameters of the members that need them.
- `log`: only its query text (`WithClauses`) and the row parsing are modelled. The SQL run in between is an opaque query.
- `_get_branches`: the two `dolt_branches` queries are not run; `Merge` takes their rows as parameters.
- Repo.Dolt.Branch: returns the outcome of its run rather than the `_get_branches` pair that follows it.
- Repo.Dolt.Sql: a result parser is not called. The model hands back the text of the file the parser would read, and the callability check is not modelled.
- Repo.Dolt.Execute: models the default `error=True`; no caller in the core passes `error=False`, whose `repr` of the exception is not modelled.
- Repo.Dolt.Sql: `mkdtemp` freshness is a parameter, and `rmtree` of the directory is modelled as removing the one file it holds.
- Writes.ImportHelper: the `mktemp` path is a parameter; the source relies on it naming no existing file.
- `**kwargs` forwarded to `execute` are fixed at their defaults; `str(float)` and `str(date)` values arrive pre-formatted.
- Commands.SchemaImportArgs: `float_threshold` is text, so its truthiness as a float is not modelled: the source leaves out `--float-threshold` for a threshold of 0.0, and a caller of the model passes `None` for it.
- Text.ParseInt: does not accept the underscores between digits (`"1_000"`) or the non-ASCII decimal digits that Python's `int` accepts; such a row count makes the model's `TableOfLine` fail where the source builds a table.
- Repo.Dolt.constructor: the `.dolt` probe of `__init__` and its `ValueError` for a directory that is not a repository are not modelled; the handle is built for a directory taken to be a Dolt repository.
- Convert.ColumnsOfRows: a `map` stands for the `defaultdict`, so the order in which the columns first appear is not kept; no caller in the core depends on it.
- Listing.ConfigOf: a `map` stands for the settings dict, so insertion order is not kept; no caller in the core depends on it.
- `print_output` and logging: output printing and log records are not modelled.
- The `isinstance` checks on `file_handle` and on `tables` are not modelled; the types of the model's parameters rule those values out.
- `DOLT_PATH` is not modelled: the log records the arguments after the executable's name.
- Not part of this model: `init`, `version`, `clone`, `read_tables`, `creds_*`, `config_global`/`config_local` wrappers, `schema_export`, `schema_show`, `table_rm`, `detach_head`, `DoltHubContext`'s server handling, and the `head`/`working`/`active_branch` properties. These are outside the core.
- `_get_branches`: the `if not active_branch` test is unreachable, since a record is always truthy.
- Commands.BranchArgs: the final `if branch_name` block of `branch` cannot be reached: every case reaching it was taken by the first test.
