# From csv detections to database tables

The program is a pipeline of processes. A main process archives result files on a remote
host under a done list. Parser processes turn csv files of bee-tag detections into sql
files, one per minute, and one database process executes those sql files and removes
them, or moves a file with a refused statement to an error directory. Parsers and
database process share nothing but directories: a lock is a directory made with `mkdir`.

This project models that pipeline and proves what its users rely on, in four layers.

* **Texts and numbers** (`Delimited`, `Decimal`, `Replace`, `Binary`, `Packing`): the
  string and packing kernels as loops, each against a definition that is not its loop.
* **The batch transformer** (`FileNames`, `CsvLines`, `CsvFiles`, `Decoder`, `Rows`,
  `Keys`, `Minutes`, `MinuteFields`, `Batch`): what a file name and the columns of a line
  say, that every line of every file is read, that the nested maps filled line by line
  are the group-by of the accepted lines, that two records share a group exactly when
  they share their minute, and that no row is lost on the way.
* **The sql text** (`Sql`, `SqlReader`, `PrintedRows`, `SqlFile`, `ColumnOrder`): the
  statement builders, a reader that recovers every record and row from their text, the
  proof that these rows are what the accepted lines deserve, that every value stands
  under its own column, and that reading an sql file line by line is reading it statement
  by statement.
* **The protocol** (`Pipeline` and the modules after it): any number of parsers and the
  database process as a step system, one step per file-system or database call, and an
  invariant (`Invariant.Inv`) kept by every step of everybody. `Guarantees` says what it
  means for every reachable state: `Tables`, `Creation` and `CreateFlag` say what the
  database holds, `Columns` and `CleanRuns` when a statement is admissible. `Converting`,
  `Draining` and `Refusals` say how far each process gets by its own steps alone.
  `FreshName`, `WorkList`, `ParserLoop` and `DoneList` hold the loops around it.

In `Pipeline` the working directory is one map from names to lock directories and files,
so that a lock name could collide with a file name, and it is proved that it never does.
A file is the sequence of its statements; `SqlFile` ties it to its text. History
variables, never read by a process, record what arrived, was converted, appended,
executed and retired. The database is its tables, each a multiset of rows with all their
columns. The server may refuse any statement for any reason; it accepts one only if the
tables exist, references resolve, keys are new, and every value fits its column: the
integer types of the CREATE statements, numbers for the rotations, and for the timestamp
a calendar date with a four-digit year, a time of day and digits behind the point. A
shutdown request only stops processes at the heads of their loops, so every interrupted
run is a run of the model.

The steps and the lines they stand for (the functions of `Pipeline` are the transition
relation; what they keep is stated by the lemmas below):

* parser: `BeginStep` main.cpp:333-339 and 257-259, `Goto` to a group 260-263,
  `AcquireStep` 268, `CheckStep` 271-278, `OpenStep` 279, `WriteStep` 281-302 one
  statement at a time, closing 303, `ReleaseStep` 304, `FinishStep` 306 and 340-343,
  `RemoveStep` and `RestStep` 344;
* database process: scanning main.cpp:381-393, `WantStep` 396, opening 397-399,
  `ExecuteStep` 401-404, a refusal 404-410, `ProbeStep` and `RenameStep` 411 with
  FileIO.cpp:74-78, `UnlinkStep` 418, `LeaveStep` 426.

What the proofs bring to light:

* Tags from 400 on are filed under the next file's keys (`Keys.KeysMerge`), and record
  ids keep a tag exactly up to 255 (`Packing.ReducedFaithful`).
* `createArchive` can report failure although its files are on the done list: the list
  is appended before the last commands of the remote chain (`DoneList.Remote.CreateArchive`).
  Lists of archives reported as created are disjoint all the same.
* With one table for everything, a file begins with a CREATE only if the parser that wrote
  its first statement had not finished a batch (`CreateFlag.BeginsWithCreate`). An INSERT
  can reach the server before any CREATE in more than one way: the first batch of a parser has no
  accepted line, so that the CREATE is never written (`OneTable.CreateMissing`), or the
  CREATE is in another sql file that the server sees later (`OneTable.CreateTooLate`),
  each with a concrete instance. An INSERT finds its table exactly when its own file
  begins with a CREATE or the CREATE of that table was executed before the file was opened
  (`Creation.InsertFindsTable`).
* The bee id is stored as an unsigned 16-bit number and its column is a signed one: a code
  whose sixteenth bit is set makes a csv file whose rows the server cannot take
  (`WideBees.CleanButWide`); codes of at most fifteen significant bits fit
  (`Columns.BeeFits`). The same holds for dates that are none and offsets that are not
  digits; what the parsers write fits exactly when all files are loadable in this sense
  (`Guarantees.LoadableExactly`).
* `bin2dec` reads more than 19 significant bits as a fixed number (`Binary.Bin2Dec`).
* `getline` drops an empty last token, so splitting undoes joining exactly when the last
  token is not empty (`Delimited.TokensOfJoin`).
* The comment above `convertTimeStampToPostGres` shows two-digit fields; the code prints
  them without leading zeros and adds the offset as a fraction. The model follows the
  code; the fourteen digits are still determined by the six numbers
  (`Sql.TimestampRecovered`).

## Model

| member | source | states |
|---|---|---|
| Guarantees.MutualExclusion | main.cpp:68-85 | in every reachable state the lock directory of a file exists exactly while one process is in that file's critical section, and never two are |
| Guarantees.LockNamesApart | main.cpp:68-85 | lock names are injective in file names, and no lock directory ever has the name of an sql file that is there |
| Guarantees.OnlyTheHolderUnlocks | main.cpp:82-85 | whatever step removes a lock directory is a step of the process inside that critical section |
| Guarantees.NoDeadlock | main.cpp:68-80 | whoever finds the lock taken holds no lock himself, and the one process inside can take a step |
| Guarantees.EverybodyLeaves | main.cpp:268-304 | under every interleaving a process leaves its critical section within a bounded number of its own steps |
| Guarantees.NoStatementIsLost | main.cpp:395-426 | every statement ever appended waits in its sql file, or was executed and is in effect in the database, or is in a file of the error directory |
| Guarantees.HandIsFrozen | main.cpp:395-426 | between locking and unlocking by the database process nobody else changes the file, in particular nothing is appended after the last read |
| Guarantees.RemovedMeansExecuted | main.cpp:401-422 | when a file is about to be removed, all of it is executed and in effect, in order and after everything older |
| Guarantees.MovedToFirstFree | FileIO.cpp:70-84 | whenever a file is about to be renamed, its destination is the first free name of its sequence of candidates, so that no earlier error file is overwritten |
| Refusals.RefusedIsMoved | main.cpp:404-426 | when the server refuses a statement, wherever in its file, the steps of the database process alone lead back to the directory scan with the file gone and unlocked and all its statements in the error directory under the first free name, the stem with as many "_1" as there were collisions |
| Refusals.UnlockedMeansGone | main.cpp:395-426 | in every reachable state in which the database process is about to unlock a file, the file is gone: all of it was executed, or all of it is in the error directory and something of it was not executed; the books of the file are closed |
| Refusals.EveryFileDisposed | main.cpp:381-427 | whatever an unlocked sql file and the tables hold, the database process can take the file away by its own steps: the statements in front of the first inadmissible one are executed in order, and the file is moved exactly when there is such a statement |
| Guarantees.FreeFileShape | main.cpp:268-304 | one table per minute: every sql file no parser has locked is the two CREATEs of its own table followed by one or more pairs of INSERTs of the same records |
| Guarantees.LinesAreStatements | main.cpp:401-403 | reading such a file line by line gives exactly its statements, if no printed offset or rotation contains a line end |
| Guarantees.NextRefers | main.cpp:401-414 | every id of a candidate INSERT about to be executed is in the main table; its table is there exactly when its file begins with a CREATE or the CREATE was executed before the file was opened, and with one table per minute always |
| OneTable.CreateMissing | main.cpp:325-343 | one table, one parser: an empty csv file followed by any file with an accepted line leads to a reachable state in which the next statement is an INSERT and no table exists |
| OneTable.CreateTooLate | main.cpp:381-404 | also when the first csv file has accepted lines: its CREATE is in its own sql file, and the database process may open the bare file of the next minute first |
| OneTable.CreateMissingExample | main.cpp:325-343 | an instance: an empty file and a file with a single line of zeros |
| OneTable.CreateTooLateExample | main.cpp:381-404 | an instance: two files of successive minutes with one line of zeros each |
| Creation.CreatedExactly | main.cpp:401-404 | in every reachable state a main or candidate table exists exactly when its CREATE was executed |
| Creation.InsertFindsTable | main.cpp:401-404 | in either table mode the INSERT about to be executed finds its table exactly when its own file begins with a CREATE or the CREATE of that table was executed before the file was opened |
| CreateFlag.FlagIsFirstBatch | main.cpp:325-343 | a parser's flag is up exactly until it has finished its first batch |
| CreateFlag.BeginsWithCreate | main.cpp:271-289 | a file begins with a CREATE exactly when there is one table per minute or the writer of its first statement had not finished a batch by then |
| CreateFlag.FirstStatement | main.cpp:281-302 | a file gets its first statement from a parser, and it is a CREATE by that rule |
| Guarantees.AllWritten | main.cpp:329-345 | when the parsers rest, the multiset of rows ever appended, all columns and their minute included, is what the csv files of all converted batches deserve |
| Converting.CanConvert | main.cpp:329-345 | an idle parser that is shown a listing takes its share and, if the batch converts and the locks of its groups are free, its steps alone lead back to the head of its loop: every group is at the end of its file, behind the CREATEs exactly when they are due, all rows of the batch are written, and exactly the csv files of the batch are removed |
| Converting.ThrowingEnds | main.cpp:329-345 | if the batch throws, the parser ends there with both directories unchanged; with nothing of its own in the listing it looks again |
| Converting.OwnMembers | FileIO.cpp:36-57 | the share is all listed files of the parser when they are within the limit, and else as many as the limit says |
| Guarantees.FilesConvertedOnce | main.cpp:329-345 | no csv file is in two batches, and at the loop heads the converted files are exactly those that arrived and are gone |
| Guarantees.AllExecuted | main.cpp:399-423 | if no sql file is left and none was refused, what was executed is what was appended |
| Guarantees.TablesMatchFiles | main.cpp:321-348 | end to end: parsers at rest and files drained, each table holds exactly the rows, all columns included, that the accepted lines of its minute deserve, each as often |
| Guarantees.LoadableExactly | DBAccess.cpp:66-100 | parsers at rest: everything written fits the columns exactly when every converted file has readable times, number rotations and bee ids below 2^15 |
| Tables.StoredExactly | main.cpp:401-416 | in every reachable state a table holds a row exactly as often as it was executed if it is the table of the row's kind and minute, and else not at all |
| Tables.MisfitNeverExecuted | main.cpp:401-414 | a statement with a value that does not fit its column is never executed |
| CleanRuns.CleanKeysFresh | DBAccess.cpp:66-100 | if the csv files repeat no shot and no decoding, the statement about to be executed never repeats a primary key |
| CleanRuns.CleanAdmissible | main.cpp:401-404 | then the server's demands on the statement are met exactly when its table is found and its values fit their columns; with one table per minute the table always is, with loadable csv files the values always do |
| CleanRuns.TotalsFit | DBAccess.cpp:66-100 | all rows converted so far fit their columns exactly when all converted csv files are loadable |
| Draining.CanDrain | main.cpp:381-427 | clean and loadable csv files: in either table mode, if the file begins with a CREATE or its tables are there, the database process can take any unlocked sql file into the database, whole and in order, by its own steps alone and with nothing moved to the error directory |
| Columns.ItemsFit | main.cpp:188-197 | the rows of accepted lines fit the columns exactly when each line has a bee id below 2^15 and number rotations and the time it is stored under can be read |
| Columns.BeeFits | main.cpp:197 | a bee code of up to 16 bits fits its column exactly when at most 15 bits are significant |
| WideBees.CleanButWide | main.cpp:197 | a file of one line that is clean in every respect and yet not loadable: its code is 1000000000000000 |
| CleanRuns.NextConverted | main.cpp:401-416 | executed items and those of the next statement together never exceed what was converted from csv files |
| InvariantDb.ReachableInv | main.cpp:251-348 | the invariant holds after every sequence of steps of any number of processes |
| Invariant.ParserKeeps | main.cpp:321-348 | every parser step keeps locks, file shapes, books, claims and the account of rows |
| InvariantDb.DbKeeps | main.cpp:350-441 | so does every step of the database process |
| Progress.HolderAdvances | main.cpp:268-304 | each own step in a critical section ends it or decreases a rank |
| Progress.OthersLeaveHolder | main.cpp:395-426 | no step of another process pushes a process out of its critical section or changes its rank |
| Ledger.NothingLost | main.cpp:395-426 | the balanced books of a file place each of its statements: in the file, executed and in effect, or in an error file |
| Files.CompleteAppend | main.cpp:271-302 | one visit of a parser takes a missing or complete file to a complete one |
| Files.ShapePerMinute | main.cpp:271-302 | complete files have the exact CREATE, CREATE, (INSERT, INSERT)+ shape when tables are per minute |
| Execution.NextStatementRefers | main.cpp:401-414 | why references resolve: an error leaves the line loop, so what stands in front of the read position is in effect |
| Conversion.ClaimsApart | FileIO.cpp:46-57 | two parsers never hold the same csv file |
| Conversion.TakenIsFresh | main.cpp:331-344 | the files an idle parser takes are there, its own, and in no earlier batch |
| Uniqueness.TotalsUnique | main.cpp:172-190 | in a clean run no primary key is converted twice, over all batches of all parsers |
| RowAccount.WrittenGrow | main.cpp:291-302 | appending a statement adds to the written items exactly what it inserts |
| Rows.TwoInserts | main.cpp:291-302 | the main and the candidate INSERT of a group together insert each record and each row of it once |
| FileNames.NameReadBack | main.cpp:151-167 | reading back a name made of prefix, camera, fourteen digits and offset: exactly this timestamp, this camera cut to 16 bits and the first three characters of the offset; it is work for the parser its seconds leave as a remainder, and for no other |
| FileNames.ExtensionOf | FileIO.cpp:43 | the extension is what follows the last dot, and the whole name when there is none |
| CsvLines.LineReadBack | main.cpp:112-197 | a line printed from ten columns is accepted with exactly these numbers, rotations and code, column by column: tag, candidate, grid, x, y, three rotations, score, and the base-2 value of the code |
| CsvLines.LineAddsNothing | main.cpp:112-145 | a line adds nothing exactly when it has fewer than ten columns or a readable position with a negative coordinate |
| CsvLines.LineThrows | main.cpp:139-197 | a line throws exactly when it has ten columns, no negative position, and a column that cannot be read |
| CsvFiles.EveryLineRead | main.cpp:200-218 | over the csv directory itself: a batch throws exactly when some line of some file throws; else its detections are what all lines of all files contribute, in order, as many as there are accepted lines |
| Decoder.DecoderMap.ParseCSVLine | main.cpp:109-198 | filing a line extends the accepted lines by what it deserves: short lines and negative coordinates add nothing, unreadable numbers throw; the map stays the group-by of the accepted lines |
| Decoder.DecoderMap.StoreDetection | main.cpp:147-197 | a new key opens a record from this line, an old one keeps its identity, takes the time and gains the next candidate number |
| Decoder.FileContentToDecoderData | main.cpp:200-218 | the loops over files and lines yield the group-by of all accepted lines, or end where a conversion throws |
| Decoder.GroupedIsGroupBy | main.cpp:147-197 | the map has a key exactly when an accepted line has it, and its record is determined by the selected lines: first id and position, last time, candidates 0, 1, ... in line order |
| Rows.RowsConserved | main.cpp:152-197 | every accepted line is one candidate row under the id of the first line with its key; every key is one main row with the id, position and camera of its first line and the time of its last; as many rows as lines plus keys |
| Keys.KeyCollision | main.cpp:149 | two tags of two files share a map key exactly when they differ by 400 times the file distance |
| Keys.KeysSeparate | main.cpp:149 | with tags in 0..399 the key stands for file and tag |
| Keys.KeysMerge | main.cpp:149 | tag 400 is filed with tag 0 of the next file |
| Keys.RecordIdsDistinct | main.cpp:172-187 | in a clean batch no two records share an id |
| Keys.CandidateIdsDistinct | main.cpp:188-190 | nor two candidates of one record a candidate id |
| Keys.IdsInTimeOrder | lib.cpp:90-107 | ids are ordered by second and then by the first two digits of the offset |
| Decoder.DateToCentisecs | lib.cpp:66-108 | hundredths since the begin of the experiment in wrapping 64-bit arithmetic, 0 before it |
| Packing.ReduceTag | main.cpp:182-185 | the loop ends for every tag, with a tag of at most 255 |
| Packing.ReducedFaithful | main.cpp:182-185 | the tag is kept exactly up to 255; a larger one becomes its remainder by 255 and so collides with a small one |
| Packing.PackRecordId | main.cpp:180-186 | the id is the or of the shifted fields, truncated to 64 bits |
| Packing.RecordIdIsSum | main.cpp:186 | within the field widths the or is the sum of the shifted fields and fits 63 bits |
| Packing.RecordIdDecodes | main.cpp:186 | every field can be read back from the id |
| Packing.RecordIdInjective | main.cpp:186 | equal ids have equal fields |
| Packing.CandidateIdDecodes | main.cpp:190 | tag, candidate and grid number can be read back from a candidate id |
| Minutes.SplitOnMinute | main.cpp:220-232 | the loop yields the groups by minute, which `MinuteFields.GroupedByMinute` characterises by the five numbers |
| Minutes.GroupsAreSplit | main.cpp:220-232 | no group is empty, each is of one minute and holds only records of the input, and every record is in the group of its minute |
| MinuteFields.MinuteIsName | main.cpp:234-242 | the minute of a timestamp is "t" with four digits of the year and two each of month, day, hour and minute |
| MinuteFields.SameMinuteExactly | main.cpp:239-242 | two timestamps have the same minute exactly when they agree in these five numbers |
| MinuteFields.GroupedByMinute | main.cpp:220-232 | two records end in one group exactly when their timestamps agree in year, month, day, hour and minute |
| MinuteFields.GroupName | main.cpp:220-232 | and the group is named after these numbers |
| MinuteFields.TableName | main.cpp:262-267 | so is its table, and with one table for everything after the year alone |
| Minutes.SplitUnique | main.cpp:220-232 | there is only one such partition |
| Minutes.SplitKeepsRows | main.cpp:224-229 | the groups together have exactly the records and rows of the input |
| Batch.ConvertKeepsRows | main.cpp:257-260 | from lines to groups: the items of all groups are those the accepted lines deserve |
| Batch.ConvertFiles | main.cpp:257-258 | the two stages in sequence compute the conversion the protocol uses |
| Batch.ConvertGroupsOk | main.cpp:257-262 | every group is non-empty, printable, named after its minute, and each record has a candidate |
| Batch.GroupHasRows | DBAccess.cpp:204 | so both INSERTs have rows and `pop_back` always removes a comma |
| Sql.GetTimeFromTimeStamp | DBAccess.cpp:28-38 | for every timestamp: the six fields as `atoi` reads them, an exception when it has fewer than twelve characters |
| Sql.TimestampRecovered | DBAccess.cpp:28-64 | the six printed numbers determine the timestamp |
| Sql.ConvertTimeStampToPostGres | DBAccess.cpp:41-64 | for every timestamp: the literal made of the six numbers and the offset, or the exception |
| Sql.BuildInsertIntoSQL | DBAccess.cpp:125-161 | throws exactly when some timestamp is too short; else header, one row per record in key order, separators, and the last character replaced by the terminator |
| Sql.BuildInsertBeesIDIntoSQL | DBAccess.cpp:163-208 | the same for the candidates of all records in both key orders |
| Sql.StatementRows | DBAccess.cpp:157-158 | with at least one row the text is the rows joined by commas |
| SqlReader.InsertMainReadBack | DBAccess.cpp:125-161 | a reader of the row grammar recovers table and all records, timestamps, offsets and signs included, in order |
| SqlReader.InsertCandidatesReadBack | DBAccess.cpp:163-208 | and all pairs of record id and candidate, infinities included |
| PrintedRows.GroupReadBack | main.cpp:291-302 | the rows read from the text of the two INSERTs of a group name its table and are its items, each once |
| PrintedRows.BatchReadBack | main.cpp:257-302 | the rows in the text of all INSERTs of a batch are the rows its accepted lines deserve |
| ColumnOrder.MainUnderColumns | DBAccess.cpp:125-161 | reading header and row of a main INSERT as lists, every value stands under its own column: id, timestamp, x, y, camera and the fixed values |
| ColumnOrder.CandidateUnderColumns | DBAccess.cpp:163-208 | and so does every value of a candidate INSERT |
| ColumnOrder.MainDeclared | DBAccess.cpp:70-84 | the CREATE of the main table names the table and declares these fields with these types, in this order |
| ColumnOrder.CandidatesDeclared | DBAccess.cpp:86-97 | the CREATE of the candidate table does the same and refers to the main table |
| ColumnOrder.SameTables | DBAccess.cpp:66-166 | CREATEs and INSERTs of a group name the same two tables, the second with one more "b" |
| SqlFile.CreateDecoderDataTableQuery | DBAccess.cpp:66-100 | the text is the two CREATE statements, one a line |
| SqlFile.WriteGroup | main.cpp:281-302 | the writes to an open file append exactly the text of the statements the protocol appends |
| SqlFile.FileReadBack | main.cpp:401-403 | reading a file by lines yields its statements whole and in order |
| SqlFile.StmtLinesAt | main.cpp:401-403 | line k is the text of statement k less its line end |
| SqlFile.FileTextAppend | main.cpp:279-302 | appending statements appends their text |
| Replace.ReplaceAll | DBAccess.cpp:210-215 | ends for every non-empty `from`, with the leftmost non-overlapping substitution |
| Replace.SubstitutedPieces | DBAccess.cpp:210-215 | which puts `to` exactly where the leftmost cut of the text found `from` |
| Replace.LeftmostCutExists | DBAccess.cpp:210-215 | every text has such a cut |
| Replace.QuotedIsSpelled | DBAccess.cpp:188-198 | the two chained replacements are one pass that never rewrites its own output |
| Replace.QuotedHasNoInf | DBAccess.cpp:188-198 | no "inf" is left anywhere |
| Replace.QuotedFixes | DBAccess.cpp:188-198 | a text is unchanged exactly when it contains no "inf" |
| Delimited.Split | lib.cpp:9-21 | the loop collects what repeated `getline` extracts |
| Delimited.TokensDelimiterFree | lib.cpp:9-21 | no token contains the delimiter |
| Delimited.JoinOfTokens | lib.cpp:9-21 | joining undoes splitting except for one final delimiter |
| Delimited.TokensOfJoin | lib.cpp:9-21 | splitting undoes joining exactly when the last token is not empty |
| Delimited.TokensOfLines | lib.cpp:9-21 | terminated tokens are always recovered |
| Binary.Bin2Dec | lib.cpp:110-124 | for every text the loop ends within the range of `int`, weighing the decimal digits of what `atol` reads with powers of two; on a bit string this is its base-2 value up to 19 significant bits, and a fixed number beyond |
| Binary.BeeIdOfBits | main.cpp:197 | the stored bee id is that value, cut to 16 bits |
| Decimal.StoiOfText | DBAccess.cpp:143 | `stoi` recovers every `int` from its printed form |
| FreshName.FileTree.MoveFilesLocal | FileIO.cpp:70-84 | the loop ends for every finite directory at the first free candidate; every other file keeps its name and content |
| FreshName.AttemptForm | FileIO.cpp:72-77 | the k-th candidate is the stem followed by k times "_1" |
| FreshName.FirstFreeUnique | FileIO.cpp:74-77 | the chosen name is determined by the directory |
| WorkList.GetCSVFilesList | FileIO.cpp:24-68 | the listed csv files of this parser's residue class, in order, at most `limit` of them |
| WorkList.OneParserEach | FileIO.cpp:46-54 | every csv file is work for exactly one parser |
| ParserLoop.CsvDirectory.RemoveFilesLocal | FileIO.cpp:86-96 | removes the listed files and no others |
| ParserLoop.CsvDirectory.Run | main.cpp:329-345 | without arrivals a parser survives exactly when all its batches convert; it then has removed exactly its class of n files after n / limit rounds rounded up, and else ends in the first batch that throws with only the earlier ones removed |
| DoneList.Remote.GetFilesCount | CrayAccess.cpp:41-67 | the number of files that are not on the done list, as a set; -1 exactly when the connection fails |
| DoneList.Remote.CreateArchive | CrayAccess.cpp:69-95 | archives the first n open files; the done list grows by exactly them unless the chain fails before the list is appended |
| DoneList.ArchivesDisjoint | CrayAccess.cpp:69-95 | archives reported as created share no file, with each other or with the initial list, and are all on the list |
| DoneList.ProcessObserver | main.cpp:533-600 | the loop over one observer lists the open files in order; when every creation succeeds it ends after n / N of them rounded up |

## Left out

- `mktime`, `localtime`: the epoch seconds of a date are a parameter (`Environment.epoch`).
- `stod` and floats: a rotation is an opaque finite text or an infinity, given by a parameter; nothing is said about NaN.
- ssh, scp, popen, `downloadArchive`, `exec`, logging, `fork`, priorities, sleeping: only their effects on the modelled state appear; a count that cannot be read ends the loop like a failed connection.
- Process crashes, disk errors, failing `fopen`, `rename`, `remove` or `rmdir`, stale lock directories of an earlier start: the directories start empty and these calls succeed. A conversion that throws ends its parser (`Dead`); its files stay.
- csv files arrive whole, under well-formed names that are never used again; partially written files and name reuse are not modelled.
- Output buffering: an append is visible at once; as it happens under the lock, nobody can tell.
- The order in which a parser visits its groups: any order is allowed, `std::map` uses one of them.
- Guarantees.FreeFileShape: states the exact shape for one table per minute only, as in one-table mode the code emits CREATE in a parser's first batch only; `CreateFlag.BeginsWithCreate` covers both modes.
- Line ends inside a csv file name: such an offset would break a statement in two; `Guarantees.LinesAreStatements` asks for their absence.
- Quotes inside an offset, blanks or parentheses inside a table name, rotation texts other than decimal numbers: the reader of `SqlReader` asks for their absence.
- The server's own reading of texts: years of fewer than four digits, 24:00:00, leap seconds, and numbers too long for a `real` count as not fitting or do not occur in printed floats.
- Fairness: that a process is ever scheduled, and that the server accepts an admissible statement, is not claimed; `Draining.CanDrain`, `Refusals.EveryFileDisposed` and `Converting.CanConvert` say what is possible when they do.
- ColumnOrder.MainUnderColumns: asks for offsets without commas and closing parentheses, as a reader of lists cannot tell those from its own.
- `Config::load`, `outputDecoderData`, `splitOnYear`, `TableSplitType`, `moveCompletedArchives`, `getObserversDirectories`: easy or unused.
- `unzip.sh` and everything under `include/` and `lib/` are not part of this model.
