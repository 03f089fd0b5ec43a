# VolUtility core, modelled in Dafny

VolUtility is a Django web front end for the Volatility memory-forensics
framework. An analyst opens a *session* on a memory image. The session gets
one *plugin record* per Volatility plugin that fits the image's profile.
Running a plugin stores its output table (columns and rows) in the record.
Files the plugin dumps are kept in a file store and linked from the rows.

This project models the part of `web/views.py` and `web/common.py` that
decides what gets stored and returned:

- **`run_plugin`**, in modules `Ladder`, `DumpDir`, `Normalise` and `RunPlugin`:
  - the ladder of engine calls: JSON first, text when JSON is unsupported, then a retry with a scratch dump directory;
  - storing the dumped files for the six dumping plugins;
  - normalising the table: a `#` counter column and the link columns;
  - parsing imageinfo;
  - the final writes to the plugin and session records.
- **`create_session` and `session_creation`**, in module `Session`:
  - the walk over a directory for images;
  - one pending session per image;
  - profile detection from kdbgscan's text;
  - the merged autorun list;
  - the plugin records and the jobs started for them.
- **The AJAX requests**, in module `Records`:
  - `pollplugins`, which adds records for newly registered plugins;
  - `dropplugin`, which resets a result;
  - `bookmark`, which toggles a row bookmark;
  - `deleteobject`, which drops a dumped file and the rows that mention it.
- **Reading results back**, in module `Export`:
  - the CSV download of `file_download`;
  - the row window, search and paging of `pluginresults`.
- **`web/common.py`**, in module `Common`: `string_clean_hex`, `hex_dump` and `temp_dumpdir`.

Module `Tables` holds the record types and stand-ins for the MongoDB
collections. They are classes whose methods replace `db.create_plugin`,
`db.update_plugin`, `db.create_file` and the rest. Each one records its
status writes in a log, so a contract can state the order of the writes.
Module `PyStr` defines the Python string operations the code relies on:
`split`, `join`, `strip`, `lower`, `endswith`, `in`, slicing with
negative indices, and `int()`/`str()` of integers.

Each imperative piece of the source is a method proved against a function
that specifies it. Examples: the escape loop of `string_clean_hex`, the
row loop of `run_plugin`, and the catalogue loop of `pollplugins`. The
properties are lemmas about those functions.

Some external facts are parameters:
- what the Volatility engine returns for each call style;
- the listing of the scratch directory;
- the clock;
- whether a database write fails;
- the plugin catalogue `list_plugins()`;
- the image's MD5;
- `str(row)`.

## Model

| member | source | states |
|---|---|---|
| Common.EscapeByte | web/common.py:27-31 | a printable byte stays itself; any other byte becomes `\x` and two lower-case hex digits whose value is the byte's code; the result is always printable |
| Common.StringCleanHex | web/common.py:19-32 | the loop's output is the escapes of the input's bytes, in order |
| Common.CleanHexAppend | web/common.py:27-31 | escaping distributes over concatenation, so the bytes keep their order |
| Common.CleanHexPrintable | web/common.py:19-32 | every character of the result is printable |
| Common.CleanHexKeepsPrintable | web/common.py:28-29 | text that is already printable passes through unchanged |
| Common.CleanHexIdempotent | web/common.py:19-32 | cleaning twice gives what cleaning once gives |
| Common.ReplaceAppend | web/common.py:51-53 | `str.replace` of one character distributes over concatenation |
| Common.ReplaceAbsent | web/common.py:51-53 | replacing a character that does not occur changes nothing |
| Common.HtmlEscape | web/common.py:51-53 | the per-character escape leaves no `"`, `<` or `>` and never shortens the text |
| Common.HtmlEscapeKeeps | web/common.py:51-53 | text without `"`, `<` or `>` is left unchanged |
| Common.EscapeAscii | web/common.py:51-53 | no `<` or `>` survives the three replacements |
| Common.EscapeAsciiCons | web/common.py:51-53 | the three replacements on a leading character give its own escape followed by the escape of the rest |
| Common.EscapeAsciiPerChar | web/common.py:51-53 | the three replacements in turn are the per-character escape: `"` becomes `&quot;`, `<` becomes `&lt;`, `>` becomes `&gt;`, every other character stays |
| Common.RowOf | web/common.py:47-53 | a line longer than 9 characters gives a row: chars 0-7 are the offset, chars 9-57 the hex column, and the ASCII column is the per-character HTML escape of chars 58-77 (empty when the line has at most 58) |
| Common.HexRowsAppend | web/common.py:45-54 | rows come out in the order of the lines |
| Common.HexRowsCount | web/common.py:46-47 | one row per line longer than 9 characters |
| Common.ShortLineSkipped | web/common.py:47 | a line of 9 characters or fewer adds nothing |
| Common.HexDump | web/common.py:35-56 | the HTML is the rendering of the rows of the command's output lines, in order |
| Common.Disk.MkdTemp | web/common.py:64 | a new, empty directory that did not exist before |
| Common.Disk.RmTree | web/common.py:66 | the directory is gone and every other one is unchanged |
| Common.Disk.TempDumpDir | web/common.py:58-66 | the scratch directory is new; it is removed after the body, or left with its files when the body raises |
| Ladder.NoneTriggersNothing | web/views.py:416-430 | `str(None)` triggers neither the text retry nor the dump-directory retry |
| Ladder.LadderShape | web/views.py:405-447 | for every engine: 1 to 3 calls, starting with JSON; a text call happens exactly when the JSON error asks for one; a dump-directory call happens exactly when the latest error asks for one, and it is the last call; the result is what the last call returned; 'error' is written exactly when the dump call raises |
| Ladder.TextRetrySucceeds | web/views.py:416-424 | when JSON is unsupported and text works, the run makes two calls and ends with the text result and no dump directory |
| Ladder.DumpRetryKeepsJson | web/views.py:430-441 | a JSON call that asks for a dump directory is retried once, in JSON, with the directory |
| Normalise.NormalColumns | web/views.py:614-623 | raises exactly when there are no columns; otherwise `#` comes first, the old columns follow in order, and the link column for hive and malfind plugins comes last |
| Normalise.HashColumnOnce | web/views.py:614-615 | normalising the columns again does not add a second `#` |
| Normalise.NumberedRow | web/views.py:626-648 | the counter is prepended, except for memdump rows without 3 cells and dumpfiles rows without 4; the link cell of row k for hive and malfind plugins is appended |
| Normalise.NumberRows | web/views.py:626-648 | the k-th row (0-based) is numbered k+1 |
| Normalise.NormalTable | web/views.py:607-648 | normalisation fails exactly when the table has no columns |
| Normalise.NumberKeptOnRerun | web/views.py:628-633 | a memdump or dumpfiles row that already has its counter is not numbered again |
| Normalise.ParseImageInfo | web/views.py:652-661 | the dictionary holds the `key : value` lines of imageinfo's text |
| Normalise.CollectKeys | web/views.py:656-661 | a key is present exactly when some line parses to an entry for it |
| Normalise.CollectLastWins | web/views.py:656-661 | a key's value comes from the last line that names it |
| Normalise.ImageInfoEntries | web/views.py:652-661 | an imageinfo key is recorded exactly when a line names it, and its value is the stripped value of the last such line |
| DumpDir.StopAtRaise | web/views.py:480-574 | once an item raises, the items after it are never reached |
| DumpDir.ExtractEach | web/views.py:500-574 | the loop raises exactly when a kept item fails; otherwise each kept item adds one shaped row, in order |
| DumpDir.ExtractOneEach | web/views.py:480-527 | when every item stores one file and adds one row, the k-th item gets file id `id + k` |
| DumpDir.StoreAll | web/views.py:489-491 | the files are appended to the store in order; nothing is dropped |
| DumpDir.Extract | web/views.py:480-574 | the rows and the stored files are those of the loop specification; the exception is reported |
| DumpDir.ImageType | web/views.py:481-488 | suffix `img`, then `dat`, then `vacb` decides the section type; anything else is `N/A` |
| DumpDir.CarveRowPerFile | web/views.py:474-498 | with `PHYSOFFSET`, each file in the listing is stored and adds one row, in listing order |
| DumpDir.CarveWithoutOffsetRaises | web/views.py:489-492 | without `PHYSOFFSET`, the first file is stored and then the loop raises |
| DumpDir.NamedItemShape | web/views.py:503-515 | a procdump/dlldump row raises without a text result; otherwise it gets `Not Stored`, a link, or nothing when its "OK" file is missing |
| DumpDir.NamedRowsShape | web/views.py:500-515 | every row is kept, in order, shaped as above; the loop raises exactly when a row lacks a text result |
| DumpDir.MissingOkFileBreaksArity | web/views.py:504-513 | an "OK" row whose file was not dumped keeps its length, although the columns grew by `StoredFile` |
| DumpDir.HiveRowPerFile | web/views.py:517-527 | dumpregistry rebuilds the table from the listing: one row per file, holding its name and a link |
| DumpDir.CertItemShape | web/views.py:531-542 | a certificate row raises without column 5; if its file was dumped, the last cell is overwritten by the link; otherwise `Not Stored` is appended |
| DumpDir.CertRowsShape | web/views.py:529-542 | every row is kept, in order, shaped as above; the loop raises exactly when some row has no column 5 |
| DumpDir.RegionItemShape | web/views.py:553-572 | a segment without ".dmp" adds nothing; one with fewer than two words raises; otherwise it gives one row of process, pid and link or `Not Stored` |
| DumpDir.RegionRowPerSegment | web/views.py:544-574 | exactly the ".dmp" segments give rows, in order |
| DumpDir.PidIsPrefix | web/views.py:559 | the pid is a prefix of the dump file name and holds no dot |
| DumpDir.CarverTable | web/views.py:473-498 | dumpfiles with an offset leaves the stored output's rows, or none under the default columns, followed by exactly one carved row per listed file, in listing order, the k-th linking file id `id + k` |
| DumpDir.NamedTable | web/views.py:500-515 | procdump/dlldump leave the result columns plus `StoredFile`; it raises exactly when a row lacks a text result, and otherwise keeps one shaped row per result row |
| DumpDir.HiveTable | web/views.py:517-527 | dumpregistry leaves the hive columns and exactly one row of name and link per listed file, in listing order |
| DumpDir.CertTable | web/views.py:529-542 | dumpcerts keeps the result columns; it raises exactly when a row has no column 5, and otherwise keeps one shaped row per result row |
| DumpDir.RegionTable | web/views.py:544-574 | memdump with its text cell leaves the stored output's rows, or none under the default columns, followed by one shaped row per ".dmp" segment; it raises exactly when such a segment has fewer than two words |
| DumpDir.ProcessDumpDir | web/views.py:460-574 | the table, the exception and the files stored are those of the specification for the plugin's kind |
| RunPlugin.FinalWrites | web/views.py:663-681 | the final writes store no files and touch no directory |
| RunPlugin.AfterLadder | web/views.py:460-681 | a directory is involved exactly when the ladder made one; no status is written exactly when an exception escapes |
| RunPlugin.AfterDump | web/views.py:607-681 | the stored files and the directory's fate pass through; an escape writes neither output nor session |
| RunPlugin.RunWithoutResult | web/views.py:449-454 | without results, the statuses are 'processing', then 'error' if the dump call raised, then 'completed'; the answer is the warning; nothing is stored; the scratch directory is never removed |
| RunPlugin.RunStoresResult | web/views.py:663-674 | a clean run writes 'processing' then 'completed', stores the table, touches the session with the image info, and answers the plugin name |
| RunPlugin.RunStoreFails | web/views.py:676-681 | a failed write ends with 'error' and the error message and leaves the session untouched; a failed plugin write stores no output |
| RunPlugin.EscapeLeavesProcessing | web/views.py:397-447 | an escaping exception leaves 'processing' (or 'error' from the dump call) with no output and no session update |
| RunPlugin.RunSpecCases | web/views.py:387-403 | an unknown plugin writes nothing; an unknown session, or one without an image path (`session['session_path']` raises at line 402), leaves only 'processing'; otherwise the rest of the run follows |
| RunPlugin.ProceededNoResult | web/views.py:449-454 | the rest of a run without results |
| RunPlugin.ProceededWithResult | web/views.py:456-681 | the rest of a run with results, after the ladder's status writes |
| RunPlugin.Shape | web/views.py:607-661 | the method computes the normalised table and the image info of the specification |
| RunPlugin.Store | web/views.py:663-681 | the record, session and status log change as the final writes specify |
| RunPlugin.Invoke | web/views.py:405-447 | the engine calls are the ladder's; 'error' is logged exactly when the dump call raised; a dump directory is made exactly when one is asked for |
| RunPlugin.Finish | web/views.py:460-681 | the stores, the disk and the answer after the ladder are those of the specification |
| RunPlugin.Conclude | web/views.py:460-681 | as Finish, counted from before the ladder's status write |
| RunPlugin.Proceed | web/views.py:405-681 | the run after 'processing' matches the specification |
| RunPlugin.Run | web/views.py:371-681 | the answer, the status log, the plugin and session records, the file store and the scratch directory all match the run specification |
| Session.Hits | web/views.py:338-340 | every hit is the joined path of the file |
| Session.AddHits | web/views.py:338-340 | the inner loop appends the hits of the extensions in order |
| Session.WalkImages | web/views.py:333-343 | the listing is the specification's, walked in order |
| Session.AtMostOneThreeLetterHit | web/views.py:337 | a name ends with at most one of the six three-letter extensions |
| Session.ListedTimes | web/views.py:337-340 | a `.vmem` file is listed twice; a file with any other known extension once; any other file never |
| Session.BaseNameIsFileName | web/views.py:356-358 | the session name part is a suffix of the path without `/` |
| Session.AddSessions | web/views.py:345-364 | one new session per image, in order and with consecutive ids; status 'Processing'; a job per id; the old sessions are unchanged |
| Session.CreateSessions | web/views.py:314-368 | no `sess_path` gives the error page; images without a `profile` field raise; otherwise the new sessions and jobs are as above |
| Session.ParseSuggestions | web/views.py:138-140 | the profiles are the second `:`-field, stripped, of the lines that mention a suggestion |
| Session.StopsAtBadLine | web/views.py:138-140 | once a suggestion line raises (no second `:`-field), the lines after it are never reached and the parse raises |
| Session.SuggestionIsSecondField | web/views.py:139-140 | a line `head:value…` suggests the stripped value |
| Session.MergedContents | web/views.py:178-180 | the merged list begins with the configured list, holds exactly the items of both lists, and adds each new item once |
| Session.MergeAutorun | web/views.py:166-180 | the method computes the autorun list of the specification |
| Session.NewRecords | web/views.py:183-197 | at most one record per catalogue entry |
| Session.RecordsFromCatalog | web/views.py:183-197 | every new record is fresh, belongs to the session, and comes from an entry outside the drop list |
| Session.CatalogRecorded | web/views.py:183-197 | every entry outside the drop list gets a record |
| Session.JobsPicked | web/views.py:198-200 | a job is started exactly for the new records whose plugin is on a non-empty autorun list |
| Session.CreateRecords | web/views.py:183-200 | the records are appended in catalogue order; the job ids are those picked |
| Session.Stage | web/views.py:83-115 | the record is staged from the form, with the 'Calculating MD5' write exactly when a checksum is asked for |
| Session.DetectProfile | web/views.py:125-146 | the first suggestion is used; a missing kdbgscan text raises; no suggestion gives the error page |
| Session.SessionCreation | web/views.py:80-200 | the session writes, status log, plugin records and jobs follow the set-up specification; nothing is created unless a profile is settled and the engine lists its plugins |
| Session.ListingFailureLeavesIncomplete | web/views.py:150-163 | when `list_plugins()` raises for the settled profile, the set-up raises before the 'Complete' write and makes no plugin record |
| Session.NoSuggestionLeavesDetecting | web/views.py:129-144 | without a suggestion, the session stays 'Detecting Profile' and no record is made |
| Session.DoneEndsComplete | web/views.py:151-164 | a finished set-up ends 'Complete' with the settled profile, empty image info and the image path; 'Detecting Profile' appears exactly when the form named no profile |
| Records.ObjectIdOf | web/views.py:761 | an id is read exactly when the text is decimal |
| Records.ObjectIdOfDecimal | web/views.py:761 | an id read back from its own rendering is the same id |
| Records.ParseIntText | web/views.py:1570 | `int(str(i)) == i` for every integer |
| Records.SessionRows | web/views.py:762 | a session's rows all belong to it |
| Records.NamesOf | web/views.py:775-777 | the names of the rows, in order |
| Records.AddMissing | web/views.py:780-798 | a fresh record is appended for each catalogue entry neither dropped nor existing; refresh is set exactly when one was |
| Records.PollPlugins | web/views.py:757-805 | no `session_id` gives a server error; a bad id or unknown session raises; so does a session without an image path or a `list_plugins()` that raises, all with no record added; otherwise the missing records are added and the session's rows are rendered |
| Records.SessionRowsAppend | web/views.py:800-801 | new records show up after the old ones |
| Records.RecordedIsExisting | web/views.py:775-787 | every recorded plugin of the session counts as existing |
| Records.PollAddsOnlyMissing | web/views.py:780-798 | a poll adds records only for entries that are neither dropped nor existing |
| Records.PollCovers | web/views.py:780-798 | after a poll, every entry outside the drop list has a record |
| Records.PollIdempotent | web/views.py:757-798 | a second poll with the same catalogue creates nothing |
| Records.Cleared | web/views.py:824-825 | only the dropped record changes |
| Records.DropPlugin | web/views.py:820-826 | without `plugin_id` nothing happens; a bad id raises; otherwise the record is reset and its status unset |
| Records.DropResets | web/views.py:824-825 | a dropped plugin keeps its session, name, help and bookmarks; loses its time, output and status; dropping twice equals dropping once |
| Records.ExistingByKeys | web/views.py:776-777 | the existing names depend only on sessions and names |
| Records.DropKeepsRow | web/views.py:820-826 | a dropped plugin still counts as existing, so a poll does not re-create it |
| Records.IndexOf | web/views.py:1578 | the first position of the value |
| Records.RemoveFirstCut | web/views.py:1578 | `remove` cuts out exactly the first occurrence |
| Records.ToggleFlips | web/views.py:1577-1582 | on a list without repeats, a toggle flips exactly the row's membership, keeps the list free of repeats, and answers 'remove' or 'add' |
| Records.ToggleTwice | web/views.py:1577-1582 | toggling twice restores the same bookmarks; the list itself when the row was absent |
| Records.RowRefRoundTrip | web/views.py:1568-1570 | `<plugin id>_<row>` reads back as that plugin and row |
| Records.Bookmark | web/views.py:1566-1587 | without `row_id` nothing happens; a malformed reference raises; otherwise the toggled list is written and the answer returned |
| Records.Unmentioned | web/views.py:1342-1347 | the filter never adds rows |
| Records.KeepRows | web/views.py:1342-1347 | the loop keeps the rows that do not mention the file id, in order |
| Records.UnmentionedExactly | web/views.py:1343-1347 | a row is kept exactly when its text does not contain the file id |
| Records.UnmentionedAppend | web/views.py:1342-1347 | the filter keeps the order of the rows |
| Records.DeleteObject | web/views.py:1324-1356 | a missing `droptype`, or a session drop whose `session_id` is missing or non-empty and not an id, raises; an empty one is ignored. For a dumped file: the file is dropped and the rows that mention it are removed. A bad plugin or file id raises with no change |
| Export.BuildCsvAsWritten | web/views.py:706-713 | the loop as written: header line, then each row's items each followed by a comma |
| Export.TrailingComma | web/views.py:709-713 | as written, a non-empty row is the intended line plus one comma |
| Export.ExtraField | web/views.py:709-713 | as written, splitting a row on commas gives the items and one empty field more |
| Export.CsvTrailingCommaExample | web/views.py:706-713 | the table `a` / `x` comes out as `a\nx,\n` instead of `a\nx\n` |
| Export.BuildCsv | web/views.py:706-713 | the corrected loop builds the header line and one comma-joined line per row |
| Export.RowLineRoundTrip | web/views.py:707-713 | a corrected row line splits back into exactly the row's items |
| Export.CsvIsLines | web/views.py:706-713 | the corrected file is its lines joined by newlines, plus a final newline |
| Export.CsvLines | web/views.py:706-713 | splitting the corrected file on newlines gives the header, one line per row, and a final empty piece |
| Export.PluginCsv | web/views.py:700-717 | an unknown id or a plugin without output raises; otherwise the answer is `<name>.csv` holding the output's CSV as written, with the trailing commas |
| Export.FixedPluginCsv | web/views.py:700-717 | the same answer built with the corrected loop: `<name>.csv` holding the header and the comma-joined rows |
| Export.PageRows | web/views.py:1544-1545 | the page is `output[start:start+length]` with Python slice semantics |
| Export.Matching | web/views.py:1526 | the search never adds rows |
| Export.MatchingExactly | web/views.py:1526 | a row is kept exactly when its lower-cased text contains the term |
| Export.EmptySearchKeepsAll | web/views.py:1526 | an empty search keeps every row in order |
| Export.PluginResults | web/views.py:1491-1564 | a bad window, id or sort field raises; no plugin id gives the error answer. Paging raises when a searched row has no cell at the sort column; otherwise it returns the total, the number of rows the search keeps, and `[start:start+length]` of a permutation of those rows. Without paging it returns `rows[start:length]` with the bookmarks |
| Export.PageWithin | web/views.py:1544 | a page holds at most `length` rows, taken from `start` on |
| Export.PagesTile | web/views.py:1544 | consecutive pages follow on without gap or overlap |
| Export.PlainViewWindow | web/views.py:1558 | `rows[start:length]` agrees with the page `[start:start+length]` when `start` is 0; it is empty whenever `length <= start` (for instance start 25, length 25, where a page of 50 rows has 25); when `0 < start < length` and the page fits, it is shorter than the page |

## Left out

- The Volatility engine is left out. Each call is a function parameter from (output style, dump directory given) to a reply, and `str(error)` is the reply's message.
- MongoDB and GridFS are not part of this model. `web/database.py` is not part of this model either. The collections are the classes in `Tables`; each record id is its index, written in decimal where it travels as text.
- `ObjectId` is modelled as decimal text. The 24-hex-digit format is not modelled.
- A `get_pluginbysession` cursor that the `existing_plugins` loop has already exhausted is not modelled, because `web/database.py` is not part of this model. Records.PollPlugins renders the session's rows from the store when nothing was added.
- File system I/O, `os.walk`, `tempfile` and `shutil` are modelled as data: `os.walk` is a flat list of (root, name) pairs, and a directory listing is a map.
- `sha256` and `md5` are parameters (`Hasher`, `md5`), left uninterpreted.
- `datetime.now()` is one `now` parameter per request.
- `multiprocessing.Process` jobs are not modelled. The model returns the ids jobs are started for.
- Logging is not modelled.
- Templates and rendering are not modelled. An answer is the data passed to the template or to `JsonResponse`.
- `str(row)` in deleteobject and pluginresults is a parameter `repr`.
- The pluginresults column sort is a parameter `sorted`. It stands for the integer sort with its fallback to the lower-cased text sort.
- Export.PluginResults: the `draw` field is only checked for presence; its value is not echoed.
- Export.PluginResults: the sort order itself (by integer value, falling back to lower-cased text, reversed unless the direction is `asc`) is not modelled; the contract states only that the sorted rows are a permutation of the searched rows.
- The `file` branch of `file_download` (a GridFS stream) is not modelled.
- The session branch of `deleteobject` (`db.drop_session`) is answered without a change to the model's stores.
- Python 2 encoding errors in `str()` and `format()` of non-ASCII text are not modelled.
- PyStr.Lower: the model lowers ASCII capitals only, as `str.lower()` on a byte string does. Form fields and `os.walk` names of a unicode path reach the views as `unicode`, whose `lower()` also maps non-ASCII capitals (the Kelvin sign to `k`, for one); that case mapping is not modelled, so a search or an image extension in such text can differ.
- Records.ParseInt: `int()` of `unicode` also accepts non-ASCII decimal digits (such as U+0661) and Unicode white space around them; the model accepts ASCII digits and ASCII white space only, so such a `row_id` or sort column raises in the model.
- PyStr.Strip, PyStr.SplitWords: Unicode white space beyond the ASCII set is not treated as white space.
- Common.StringCleanHex: the input is a byte string (every character below 256), as in Python 2. `str(line)` of a non-string value is not modelled.
- Common.HexDump: `getoutput(hex_cmd)` runs a shell command, so the model starts from the text it printed.
- The commented-out malfind block of `run_plugin` is not code and is not modelled.

## Findings

| source | as written | input that shows it | evidently intended | confidence | as-written member | corrected member |
|---|---|---|---|---|---|---|
| web/views.py:711-712 | `file_data.rstrip(',')` discards its result, so every CSV row keeps a trailing comma and gains one empty field | a table with column `a` and one row `x`: the file is `a\nx,\n` | the items of each row joined by commas, `a\nx\n` | not executed | Export.BuildCsvAsWritten, Export.ExtraField, Export.CsvTrailingCommaExample | Export.BuildCsv, Export.FixedPluginCsv, Export.RowLineRoundTrip, Export.CsvLines |
