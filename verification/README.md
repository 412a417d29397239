# Verification of cqlx

cqlx is a small compiler around the Apache Cassandra driver for Go. Its `qb` builders turn a
statement tree into positional CQL and a list of parameter names; `CompileNamedQuery` does
the same from text; the bind functions turn names into positional arguments; table models
hand out builders; the iterator decodes rows into structs; `schemagen` turns keyspace
metadata into Go types. This project models these parts in Dafny and proves what they
promise. `dafny verify dfyconfig.toml` checks all of it.

## How the model is laid out

- **Statements.** A buffer of the model (`Docs`, `Buffers`) keeps, beside the bytes, a ghost
  log of what was written: texts and parameters, in order. The statement text and the list
  of names are two readings of that log. `Values`, `Comparators`, `Using` and `Statements` hold
  the tree and the log each writer leaves; the writer methods beside them, and the classes in
  `SelectBuilder`, `InsertBuilder`, `UpdateBuilder`, `DeleteBuilder` and `BatchBuilder`, follow
  the Go methods and are proved to write exactly that log and to return exactly those names.
  `Shape`, `Meaning` and `Compilation` prove the properties of the log for every tree.
- **Named queries.** `NamedQuery` has the scanner loop, its recursive specification, and the
  proof that scanning and printing are inverse to each other, with the exact error cases;
  `QueryBytes` says byte by byte what one name, one escape and one error compile to.
- **USING and durations.** `Using`, `UsingHistory` and `Durations` model the mutable clause
  state with its sentinels, read the clause off any history of setters and writes, and parse
  the printed durations back; `UsingText` reads the amounts and names off the printed clause.
- **Slices and tables.** `Slices` models Go slices over shared arrays with `append` and `copy`.
  `Builder`, `Table`, `Clients` and `Sharing` follow a client that passes slices of its own, with
  or without room to spare, to any builders of one table: whatever the client shares, every call
  is served, and the table gives its own answers; the builders behave as if nothing were shared,
  as long as no slice with room shares its array. `Overlaps` says exactly when it shows that two
  builders, or two callers of one cached statement, do share room. `TableTexts` and `ClientCalls`
  spell out the statements of a table letter by letter, and what each call changes part by part.
- **Binding, rewriting, iterating.** `Binding`, `Rewrite` and `Iterators` model the bind
  functions with the error they remember, the table rewrite loop, and the row cache.
- **Schema generator.** `CqlTypes`, `GoTexts` and `Camelize` hold the recursions over type trees,
  and `GoReading` a reader of the printed Go types; `TypeRewriting`, `Schemas` and `Generation`
  run the recursions on types in memory whose tuple arrays may be shared, with the order of all
  map iterations left open.

Strings are byte strings, one `char` for one byte; only the validator texts of the schema
generator are read by code points, because their white space may be any of Unicode's. Durations
and instants are unbounded integers of nanoseconds. Go's integer division is modelled by
`Durations.Quo` and `Durations.Rem`, which truncate toward zero.

## Where the code does not do what one may expect

- `StatementRoundTrip`, `CompilationPreservesMeaning`: both laws need a condition, and both
  conditions are exact. The round trip needs plain names and a colon to be seen, so it fails for
  every statement with a tuple parameter, whose names have brackets (`TupleBreaksRoundTrip`,
  `TupleInWhere`). Positional binding means what the tree says, for all values, exactly when no
  literal `?` stands before a parameter (`MeaningExactly`).
- `SecondToCql`: a TTL of zero, and one of minus one second, is kept as the sentinel -1, which
  the first write turns into 0. The second `ToCql` then differs; from there on it is stable.
- `UsingHistory.TimestampWanted`: `TTL` also erases a pending timestamp name.
- `formatDuration` says that it rounds to the nearest millisecond; it truncates. A timeout that
  is not zero and below one millisecond, negative ones included, prints as `TIMEOUT` without an
  amount (`UsingHistory.EmptyTimeout`).
- A tuple parameter with a count below one still writes one `?`, named with the index `count-1`;
  the count is honoured exactly from one up (`Values.TupleCount`).
- `Get` without an error need not have read a row: not-found is decided by the number of rows,
  so an iterator that has delivered them all reports no error and leaves the value alone.
  `Iterators.Iterx.Get` says exactly when there is no error, and `Iterators.Iterx.GetPastEnd`
  calls it after all rows have been scanned.
- User types that only fields of other user types mention are dropped: the fields of what
  remains use only what remains exactly if the user types the columns mention mention no others
  (`Generation.FieldTypesRemain`; `Generation.FieldTypeDropped` is an input where they do).
- Builders keep the slice a caller passes, room included. Two builders given the same `cols...`
  with room for what each adds next overwrite each other's column, unless the additions agree
  (`Overlaps.ShareColumns`, and `Overlaps.ShareIf` for comparators).
- `Insert`, and `Get` and `Select` without columns, hand out the slice of names that the table
  caches. Two callers that append to it may overwrite each other (`Overlaps.ShareNames`); one that
  writes into it changes what the table returns from then on (`Overlaps.OverwriteName`).

## Model

| member | source | states |
|---|---|---|
| Compilation.PlaceholderAgreement | qb/select.go:61-118 | for every statement tree, batches of batches included, the `?` of the text are as many as the names exactly when the caller's texts hold no `?` and nothing inserts JSON; there are never fewer `?` than names |
| Compilation.NamesInClauseOrder | qb/batch.go:45-70 | the names come clause by clause in the order of the text, those of a batch's statements prefixed |
| Compilation.HolesAreSeparated | qb/select.go:61-118 | every parameter of every statement is followed by `,`, `)` or a space |
| Compilation.StatementRoundTrip | queryx.go:31-88 | compiling the named form of a statement (parameters as `:name`, text colons doubled) gives back the text and names of `ToCql`, if and only if all bytes of all names are letters, digits, `_` or `.` and the named form has a colon |
| Compilation.TupleBreaksRoundTrip | qb/value.go:36-49 | no statement survives that has an element of a tuple among its names |
| Compilation.TupleInWhere | qb/value.go:36-49 | every select, update or delete with a tuple in its WHERE clause has one, and does not survive |
| Compilation.CompilationPreservesMeaning | queryx.go:210-225 | for a statement without literal `?` and any map that defines its names, putting the i-th bound argument at the i-th `?` gives the text of the tree with every parameter replaced by its value in the map, put through the transformer if there is one |
| Compilation.MeaningExactly | queryx.go:210-225 | this holds for all values exactly when no literal `?` stands before a parameter |
| Compilation.SecondToCql | qb/using.go:76-86 | a second `ToCql` of any builder returns the same text and names exactly when no zero TTL is pending (a JSON insert never touches its clause); after one `ToCql` the state no longer changes |
| Compilation.PendingDiffers | qb/using.go:76-86 | with a zero TTL pending, the second text is shorter or the second list of names is longer by one |
| Meaning.StatementSays | qb/select.go:61-118 | the log of every statement, with parameters replaced by values, is the clause-by-clause reading of the tree |
| Meaning.SelectSays | qb/select.go:61-118 | the same for SELECT: selectors, WHERE, GROUP BY, ORDER BY, limits, flags and USING in this order |
| Meaning.InsertSays | qb/insert.go:43-84 | the same for INSERT: as many values as columns, in the same order, or the JSON form without anything after it |
| Meaning.InitColumnsAre | qb/insert.go:60-65 | the i-th column written is that of the i-th initializer |
| Meaning.UpdateSays | qb/update.go:53-84 | the same for UPDATE: USING before SET, then WHERE, IF and the flags |
| Meaning.DeleteSays | qb/delete.go:38-60 | the same for DELETE |
| Meaning.BatchSays | qb/batch.go:45-70 | the same for BATCH: every added statement in full, its parameters looked up under its prefix, closed by a semicolon |
| Meaning.UsingAdds | qb/using.go:73-119 | a USING clause is nothing or `USING c (AND c)*` over the present ones of TTL, TIMESTAMP, TIMEOUT in this order |
| Meaning.ClauseAdds | qb/cmp.go:604-635 | a WHERE or IF clause is nothing or the comparators joined by ` AND ` |
| Meaning.ValueAdds | qb/value.go:25-57 | a value is its parameter's value, the tuple of its elements' values, its literal, or the call with its parameters' values |
| Shape.StatementShape | qb/select.go:61-118 | every statement's log is complete, has exactly the clause-ordered names, and is free of literal `?` exactly when the caller's texts are and nothing inserts JSON |
| Docs.FlatChannels | qb/value.go:15-28 | the two channels are the two readings of one byte sequence with parameters in place |
| Docs.FlatSeparated | qb/value.go:36-49 | a log whose parameters were each followed by a separator has them separated byte by byte |
| Docs.RenameChannels | qb/batch.go:103-112 | prefixing the names of a statement changes nothing but the names |
| Docs.PrefixedNames | qb/batch.go:103-112 | every name gets the prefix and a dot before it, unless the prefix is empty |
| Values.Placeholders | qb/utils.go:17-27 | writes one mark for each of the given parameters, with commas between them |
| Values.WriteValue | qb/value.go:25-57 | writes the value's marks or text and returns one name per mark, in order |
| Values.TupleCount | qb/value.go:36-49 | a tuple has as many parameters as its count says exactly if that is at least one, the i-th named by the base and the numeral of i in brackets; below one it has a single one, numbered `count-1` |
| Values.WriteTuple | qb/value.go:36-49 | writes the tuple's marks in parentheses and returns their names |
| Values.WriteColumns | qb/utils.go:31-38 | writes the columns with commas between them |
| Comparators.WriteCmp | qb/cmp.go:36-63 | writes column, operator and value, and returns the value's names |
| Comparators.WriteCmps | qb/cmp.go:604-613 | writes the comparators joined by ` AND ` with a final space, and returns their names in order |
| Comparators.WriteClause | qb/cmp.go:617-635 | writes nothing without comparators, else the keyword and the comparators |
| Comparators.WriteLimit | qb/limit.go:34-47 | writes the limit clause, for one partition or for all, and returns its name if it has one |
| SelectBuilders.SelectBuilder.ToCql | qb/select.go:61-118 | returns the text and the names of the builder's tree, and changes nothing but the pending zero TTL |
| SelectBuilders.SelectBuilder.Columns | qb/select.go:143-150 | takes over the first columns with their array and appends later ones, writing at most into the spare room of the builder's own slice |
| SelectBuilders.SelectBuilder.GroupBy | qb/select.go:203-210 | the same for GROUP BY |
| SelectBuilders.SelectBuilder.Distinct | qb/select.go:158-165 | replaces the DISTINCT columns by the caller's slice unless there are comparators; then appends as the others do |
| SelectBuilders.SelectBuilder.Where | qb/select.go:192-199 | takes over the first comparators with their array and appends later ones, writing at most into the spare room of the builder's own slice |
| InsertBuilders.InsertBuilder.ToCql | qb/insert.go:43-84 | returns the text and the names of the builder's tree; a JSON insert has one `?`, no name, and leaves the clause state alone |
| InsertBuilders.InsertBuilder.Columns | qb/insert.go:109-117 | adds every column with a parameter of its own name |
| InsertBuilders.InsertBuilder.WriteInitColumns | qb/insert.go:60-65 | the first loop writes the column names of all initializers |
| InsertBuilders.InsertBuilder.WriteInitValues | qb/insert.go:69-74 | the second loop writes their values in the same order and returns their names |
| UpdateBuilders.UpdateBuilder.ToCql | qb/update.go:53-84 | returns the text and the names of the builder's tree, the clause's names before those of the assignments |
| UpdateBuilders.UpdateBuilder.Set | qb/update.go:152-161 | assigns every column a parameter of its own name |
| UpdateBuilders.UpdateBuilder.AddValue | qb/update.go:222-229 | assigns the column to itself plus a value |
| UpdateBuilders.UpdateBuilder.RemoveValue | qb/update.go:252-259 | assigns the column to itself minus a value |
| UpdateBuilders.UpdateBuilder.Where | qb/update.go:263-270 | extends WHERE with the aliasing of Go's `append` |
| UpdateBuilders.UpdateBuilder.If | qb/update.go:274-281 | extends IF in the same way |
| DeleteBuilders.DeleteBuilder.ToCql | qb/delete.go:38-60 | returns the text and the names of the builder's tree |
| BatchBuilders.BatchBuilder.ToCql | qb/batch.go:45-70 | returns the held texts between the batch keywords and the clause's names before the held ones |
| BatchBuilders.BatchBuilder.AddStmtWithPrefix | qb/batch.go:103-112 | adds one text and its names, each prefixed unless the prefix is empty |
| BatchBuilders.BatchBuilder.Add | qb/batch.go:83-93 | adding a builder adds its tree as a child, names unchanged |
| BatchBuilders.BatchBuilder.AddBatch | qb/batch.go:83-93 | the same for a batch added to a batch, or to itself |
| BatchBuilders.BatchBuilder.AddWithPrefix | qb/batch.go:96-99 | the same under a prefix |
| BatchBuilders.BatchBuilder.AddBatchWithPrefix | qb/batch.go:96-99 | a batch added to a batch under a prefix, or to itself, becomes a child in the same way; the pending zero TTL of the inner batch is used up |
| BatchBuilders.FlatBatchIsTree | qb/batch.go:45-70 | what the flat lists of a batch yield is what the tree over its statements compiles to |
| BatchBuilders.FlatBatchAgreement | qb/batch.go:88-112 | for any texts and names a caller adds, the `?` of the batch are its clause's names and those of the texts, so they agree with all names exactly if the texts together hold as many `?` as there are added names |
| BatchBuilders.FlatBatchFills | qb/batch.go:45-112 | if every added text has as many `?` as names, positional binding gives each text the arguments of its own names, after those of the clause |
| BatchBuilders.HoldsMore | qb/batch.go:88-112 | adding what a statement compiles to keeps the lists in step with the tree |
| NamedQuery.CompileNamedQuery | queryx.go:31-88 | the scanner loop computes the recursive specification in all three results |
| QueryBytes.NameCompiles | queryx.go:44-92 | between texts without colons, `:name` before a byte that is no letter, digit, `_`, `.` or colon compiles to `?` under that name if and only if all bytes of the name are letters, digits, `_` or `.` |
| QueryBytes.NameAtEnd | queryx.go:60-80 | a name at the very end loses its last byte to the text if that is `_` or `.` |
| QueryBytes.EscapedColon | queryx.go:46-51 | two colons are one colon of the text |
| QueryBytes.FinalColon | queryx.go:44-60 | a lone colon at the very end vanishes |
| QueryBytes.ColonAfterName | queryx.go:31-56 | a colon directly after a name is refused at its offset, a query without colons at once |
| NamedQuery.ScanOfPrint | queryx.go:44-85 | a printed sequence of texts and plain parameters scans back to itself, whatever text follows |
| NamedQuery.PrintOfScan | queryx.go:44-85 | what a successful scan read prints back to the query, up to a lone final colon |
| NamedQuery.RoundTrip | queryx.go:31-88 | a template with separated parameters survives printing and compiling if and only if its names are plain and a colon is to be seen |
| NamedQuery.ClashMeans | queryx.go:46-56 | when the scan fails, the query is a printed prefix followed by a colon that directly follows a non-empty name, and the reported offset is that colon's |
| NamedQuery.ClashFrom | queryx.go:46-56 | conversely every such query fails there, with the names before it |
| NamedQuery.OnlyPlainSurvives | queryx.go:60-80 | if compiling gives the printed template's text and names back, all its names are plain |
| NamedQuery.Conservation | queryx.go:33-38 | on success the colons are the names, two for each escape and one for a lone final colon; the `?` grow by the names; neither buffer outgrows what was allocated |
| Templates.HoleCount | queryx.go:72-74 | the `?` of a text are its parameters and its literal `?` |
| Templates.FillIsDirect | queryx.go:210-225 | filling the `?` in order agrees with writing every value at its own parameter when no literal `?` precedes a parameter |
| Templates.FillShifts | queryx.go:210-225 | otherwise the values shift: there are values for which the two differ |
| Using.UsingClause.WriteCql | qb/using.go:73-107 | writes the clause the state asks for, returns its names, and turns the -1 of a zero TTL into 0 |
| Using.UsingClause.TTL | qb/using.go:34-41 | stores the whole seconds of the duration, cut toward zero, with -1 for none, and erases the timestamp name, not the TTL name |
| Using.UsingClause.TTLNamed | qb/using.go:43-47 | clears the TTL value and keeps the name |
| Using.UsingClause.Timestamp | qb/using.go:49-53 | stores the whole microseconds, cut toward zero, and erases the timestamp name |
| Using.UsingClause.TimestampNamed | qb/using.go:55-59 | clears the timestamp and keeps the name |
| Using.UsingClause.Timeout | qb/using.go:61-65 | stores the duration and erases the timeout name |
| Using.UsingClause.TimeoutNamed | qb/using.go:67-71 | clears the duration and keeps the name |
| Using.WritePreamble | qb/using.go:109-119 | writes `USING ` the first time and `AND ` from then on |
| UsingHistory.ClauseOfHistory | qb/using.go:34-119 | after any history of setters and writes the clause says what the last setter of each kind asked for, with the rules of the sentinels and of the erased timestamp name read off the history |
| UsingHistory.TtlOfHistory | qb/using.go:34-47 | the TTL part: the last of `TTL` and `TTLNamed` decides; a zero or minus-one TTL prints 0 once and then lets the last name given show through |
| UsingHistory.TimestampOfHistory | qb/using.go:34-59 | the TIMESTAMP part: the last setter decides, but a later `TTL` erases a name |
| UsingHistory.TimeoutOfHistory | qb/using.go:61-71 | the TIMEOUT part: the last setter decides |
| UsingTexts.TtlPrinted | qb/using.go:16-41 | after any history whose last TTL setter is `TTL(d)`, the clause starts with `USING TTL n `, where n reads back as the whole seconds of d, cut toward zero, or as 0 for zero and minus one second before the first write |
| UsingTexts.TimestampPrinted | qb/using.go:21-53 | likewise `TIMESTAMP n ` with the whole microseconds, after the preamble or a TTL |
| UsingTexts.TimeoutPrinted | qb/using.go:61-99 | likewise the timeout comes last, as a text that reads back as its whole milliseconds, or as a parameter of its name |
| UsingTexts.NamePrinted | qb/using.go:43-59 | a TTL name given last is the first parameter of the clause; a timestamp name is one unless a `TTL` came after it |
| UsingHistory.EmptyTimeout | qb/using.go:97-99 | TIMEOUT is written without an amount exactly for a non-zero timeout below one millisecond |
| UsingHistory.PendingZeroTtlChanges | qb/using.go:76-86 | with a zero TTL pending, the second clause is shorter or has one more name |
| Durations.FormatDuration | qb/utils.go:40-61 | prints the positive ones of minutes, seconds and milliseconds |
| Durations.DurationRoundTrip | qb/utils.go:40-61 | for every duration from zero up the printed text parses back, `ms` told from `m`, to the duration cut to whole milliseconds |
| Durations.DurationLetters | qb/utils.go:40-61 | minutes with `m`, then seconds with `s`, then milliseconds with `ms`, each only if there are any |
| Durations.Parts | qb/utils.go:43-47 | seconds are below 60, milliseconds below 1000, and the parts add up to the duration cut to whole milliseconds |
| Durations.DurationInjective | qb/utils.go:40-61 | two durations from zero up print alike exactly when they agree on whole milliseconds |
| Durations.DurationEmpty | qb/utils.go:49-60 | nothing is printed exactly for durations below one millisecond, negative ones included |
| Slices.Append | table/table.go:48-54 | `append` extends the view; it reuses the array exactly when there is room, and then writes only behind the old end |
| Slices.Copy | table/table.go:55-56 | `copy` into a fresh array gives an unshared, full slice of the same elements |
| Tables.Table.constructor | table/table.go:42-66 | both comparator slices hold the key's comparators and are full; the cached statements are the freshly built ones, their names in three arrays of their own with any room |
| Tables.KeyCmps | table/table.go:47-56 | the two loops and the copy leave the primary key's comparators in a slice grown exactly to its capacity, and the partition key's in one of its own |
| Tables.Table.PrimaryKeyCmp | table/table.go:74-78 | returns a copy in an array of its own |
| Tables.Table.Get | table/table.go:86-95 | for every slice of columns returns what the select by primary key compiles to; without columns, the table's own slice of names |
| Tables.Table.Select | table/table.go:117-126 | the same by partition key, though with columns it goes through a window with spare room into the primary key's array |
| Tables.Table.Insert | table/table.go:150-152 | returns what the insert of all columns compiles to, with the table's own slice of names |
| Tables.Table.Update | table/table.go:170-172 | returns what the update by primary key compiles to |
| Tables.Table.Delete | table/table.go:190-192 | returns what the delete by primary key compiles to |
| Tables.Table.GetBuilder | table/table.go:108-114 | a new builder for the select by primary key, over the caller's slice of columns and the table's own comparators, which a later append cannot write into |
| Tables.Table.SelectBuilder | table/table.go:140-142 | a new builder for the select by partition key, over the caller's slice of columns and the table's own comparators, which a later append cannot write into |
| Tables.Table.UpdateBuilder | table/table.go:185-187 | a new builder for the update by primary key, over the table's own comparators, which a later append cannot write into |
| Tables.TableNames | table/table.go:170-187 | an update asks for its columns, then partition key, then sort key; get, select, insert and delete for their keys or columns in order |
| ClientCalls.TableStatements | table/table.go:86-206 | the select, insert, update and delete of a table, spelled out from its metadata: every column, every key with `=?`, and the names in order |
| ClientCalls.AnswerMeans | table/table.go:86-192 | which of these the table answers to each question about given columns |
| ClientCalls.TakenMeans | table/table.go:108-206 | which of these each builder starts with |
| Sharing.Serve | table/table.go:108-206 | any list of calls (taking builders from one table, adding columns and comparators, USING setters, `ToCql`, the table's own statements), with any slices of the client's that are not the table's own, of which those with room share their array with no other: the table is untouched, and every builder and every returned statement is what it would be if nothing were shared |
| Sharing.ServeAny | table/table.go:86-206 | with any slices but the table's own, shared in any way: every call is served, taking builders and returning a statement exactly when it should; the table stays as it is, and what it says for itself is the statement of its metadata and of the columns given, unless a slice with room shares their array |
| Sharing.FullIsApart | qb/select.go:143-150 | slices without room may be passed as often as one likes, to any number of builders |
| Overlaps.ShareIf | qb/update.go:274-281 | two updates given one slice for IF and then more: the first keeps what it asked for if and only if the room is too small for one of the additions, or these agree as far as both go |
| Overlaps.ShareColumns | qb/select.go:143-150 | the same for the columns of two selects |
| Overlaps.AppendTwice | table/table.go:150-152 | of two appends to one slice the first result survives the second if and only if the room is too small for one of them, or they agree as far as both go |
| Overlaps.ShareNames | table/table.go:150-152 | two callers that extend the names `Insert` handed to both leave the table as it is, and the first keeps its list under exactly this condition |
| Overlaps.OverwriteName | table/table.go:150-152 | a caller that writes into these names leaves the table's cache right if and only if it writes the same name |
| Sharing.ChangeOne | qb/select.go:192-199 | a call on one builder of the pool leaves the table and all other builders as they are, and the slices still to come as welcome as before |
| Clients.Change | qb/select.go:143-210 | any call on a builder: what arrays it may come to read and to write into, and, if its argument shares no room with the builder, that it means what the values of the argument say |
| ClientCalls.SelectChanges | qb/select.go:137-216 | a call on a select extends exactly one part of its statement and leaves the others |
| ClientCalls.InsertChanges | qb/insert.go:109-117 | the same for an insert, column by column |
| ClientCalls.UpdateChanges | qb/update.go:152-281 | the same for an update |
| ClientCalls.DeleteChanges | qb/delete.go:79-132 | the same for a delete |
| ClientCalls.OneCall | table/table.go:108-206 | in a list of calls, each one adds the builder it takes, changes the builder it is for, or says what it asks for |
| Clients.AskTable | table/table.go:86-192 | the table's own statements are those of its metadata, and asking for them changes nothing |
| Clients.AddWhere | qb/update.go:263-270 | adding comparators of any slice gives a builder arrays that are its old ones, the slice's or new, with room in the slice's only if the slice has room |
| Binding.BindMeans | queryx.go:210-225 | binding stops at the first undefined name; before it the i-th argument is the i-th name's value, and what the transformer makes of that name and value if there is one |
| Binding.Queryx.BindMapArgs | queryx.go:210-225 | the loop computes this for a map, argument by argument |
| Binding.Queryx.BindStructArgs | queryx.go:166-195 | struct-plus-map binding is map binding on the map overridden by the struct's fields: same arguments, same success, same first missing name; the write at index i is in range |
| Binding.Queryx.BindMap | queryx.go:198-208 | a failed bind is remembered and keeps the old arguments, a successful one clears the error |
| Binding.Queryx.BindStructMap | queryx.go:154-164 | the same for struct and map |
| Binding.Queryx.Exec | queryx.go:247-252 | a query whose last bind failed is not sent |
| Rewrite.RewriteTable | dbutil/rewrite.go:27-41 | the loop inserts the transformed non-empty rows in source order up to the first failure, each row scanned into an empty map, and returns that failure or the iterator's |
| Rewrite.TodoOfOne | dbutil/rewrite.go:27-36 | a row is transformed if there is a transform, and skipped if it is empty then |
| Rewrite.TodoOfParts | dbutil/rewrite.go:27-36 | the rows are worked off in order |
| Rewrite.InsertsMeans | dbutil/rewrite.go:36-41 | what was inserted is a prefix of those rows, each bound in full; the error is that of the next row; without an error all were inserted and the source was read to its end |
| Iterators.Iterx.StructScan | iterx.go:259-289 | with traversals and destinations cached from earlier rows, the next row goes into the given struct and the flag exactly as with freshly computed ones; strict scanning names the first missing column |
| Iterators.Iterx.FillCache | iterx.go:264-280 | the cache is filled once, or rejected because of the first column without a field |
| Iterators.FieldsByTraversal | iterx.go:296-311 | every destination with a field is pointed at the given struct, all others stay |
| Iterators.Iter.Scan | iterx.go:288-288 | writes a row from left to right to destinations that all belong to the given struct or are the flag |
| Iterators.DecodeMeans | iterx.go:302-308 | a field ends up with the last column mapped to it and keeps its content without any |
| Iterators.SlotsMean | iterx.go:264-280 | a column goes to the field of its name; the first column goes to the flag if it is `[applied]` and has no field; others go nowhere |
| Iterators.RowMeans | iterx.go:259-311 | after a row a field holds the last column of its name, or what it held before without one |
| Iterators.FlagMeans | iterx.go:264-280 | the flag holds the `[applied]` column of a result that has no field for it, or what it held before |
| Iterators.FirstMissingMeans | cqlx.go:56-63 | the first column without a field, if there is one |
| Iterators.Iterx.CheckErrorMeans | iterx.go:85-100 | which destinations are refused for their kind, and with which error |
| Iterators.Iterx.RefusesMeans | iterx.go:264-275 | strict scanning refuses a struct exactly if some column has no field, before the first row, outside CAS results |
| Iterators.Iterx.ScanRows | iterx.go:173-198 | the loop of `scanAll` collects every row up to the first undecodable one, each in a struct of its own; earlier structs are not written again |
| Iterators.Iterx.ScanAll | iterx.go:129-206 | the caller's slice gets these rows in order, as structs or as pointers, and is untouched when there are none |
| Iterators.Iterx.Select | iterx.go:122-127 | the first error wins; without an error every remaining row was delivered |
| Iterators.Iterx.Get | iterx.go:65-106 | on an iterator that is open or has no row left, there is no error exactly if none stood before, the destination is accepted, there are rows, and the next one, if any is left, can be decoded; then it was decoded into the value, which stays as it was when none was left; the driver's iterator ends up closed; without any rows there is an error and the value is untouched |
| Iterators.Iterx.GetPastEnd | iterx.go:65-70 | after a struct scan of every row, `Get` reports no error, and the value is what the rows decoded one after the other made of it |
| Iterators.Iterx.Close | iterx.go:335-341 | an error of the scan hides the driver's |
| Iterators.Iterx.CheckErrAndNotFound | iterx.go:344-351 | an earlier error, else not-found without rows |
| Iterators.MissingField | cqlx.go:56-63 | the index of the first empty traversal |
| Camelizing.Camelize | cmd/schemagen/camelize.go:14-41 | the byte loop keeps all but the underscores and capitalises the first letter and the first lower-case letter after an underscore, however many digits and capitals come between; it fails exactly on other bytes |
| Camelizing.CamelShape | cmd/schemagen/camelize.go:14-41 | a Go name holds letters and digits only and does not begin with a lower-case letter |
| Camelizing.CamelLetters | cmd/schemagen/camelize.go:14-41 | letter by letter: underscores go, the first letter and the first lower-case one after an underscore become capitals, all else stays; exactly other bytes than letters, digits and underscores are refused |
| Camelizing.CamelTwice | cmd/schemagen/camelize.go:14-41 | camelizing a Go name changes nothing |
| CqlTypes.Strip | cmd/schemagen/schemagen.go:244-247 | the loop ends and strips any depth of `frozen<...>` and white space, that of Unicode included |
| CqlTypes.StripFrozen | cmd/schemagen/schemagen.go:244-247 | one `frozen<...>` and the white space around it go, the inside is stripped in turn |
| CqlTypes.StripPlain | cmd/schemagen/schemagen.go:244-247 | any other name loses the white space around it and nothing more |
| CqlTypes.RewriteKeepsShape | cmd/schemagen/schemagen.go:218-253 | rewriting keeps the tree, except that an opaque leaf may become a reference to the user type it names, in the keyspace |
| CqlTypes.RewriteTwice | cmd/schemagen/schemagen.go:218-253 | rewriting is idempotent |
| CqlTypes.RewriteUses | cmd/schemagen/schemagen.go:348-375 | after rewriting a type uses a name exactly if it referred to it before or had an opaque leaf that strips to that known name |
| CqlTypes.UsesMeans | cmd/schemagen/schemagen.go:348-375 | a type uses a name exactly if a reference to it is among the types it consists of |
| TypeRewriting.RewriteInPlace | cmd/schemagen/schemagen.go:218-253 | rewriting in place ends with the rewritten tree even if tuple arrays are shared and partly rewritten already, and changes nothing that was finished |
| TypeRewriting.FinishedDenotes | cmd/schemagen/schemagen.go:234-240 | a finished type is its goal all the way down in memory |
| Schemas.Resolve | cmd/schemagen/schemagen.go:185-212 | after resolution every column and every field of a user type is its original tree rewritten, whatever is shared and in whatever order they come |
| Generation.TypeUsesName | cmd/schemagen/schemagen.go:348-375 | the walk in memory decides whether the tree uses the name |
| Generation.Prune | cmd/schemagen/schemagen.go:122-132 | exactly the user types remain that some column mentions at any depth |
| Generation.IntroducedNamesRemain | cmd/schemagen/schemagen.go:120-132 | every name that resolution put into a column still has its user type |
| Generation.FieldTypesRemain | cmd/schemagen/schemagen.go:120-132 | after the run the fields of the remaining user types use only remaining ones if and only if, before it, every known user type that a field of a mentioned one mentions is itself mentioned by some column |
| Generation.FieldTypeDropped | cmd/schemagen/schemagen.go:122-132 | it fails for a column `frozen<a>` and a field of `a` of type `b`: `b` is dropped, though the field of the remaining `a` uses it |
| Generation.CollectImports | cmd/schemagen/schemagen.go:257-284 | adds exactly the paths the tree requires, each once |
| Generation.AppendUnique | cmd/schemagen/schemagen.go:286-290 | appends a string unless it is there, and keeps the list free of repetition |
| Generation.MapCqlTypeToGoType | cmd/schemagen/map_types.go:16-77 | prints the Go type of the tree, and fails exactly on a nil inside or a user type without a proper name |
| GoReading.ReadsBack | cmd/schemagen/map_types.go:16-77 | reading the printed text gives the type back part by part: the word for each CQL type, slices, maps with key and element apart, and struct fields in order, numbered from one |
| GoTexts.PrintableMeans | cmd/schemagen/map_types.go:16-77 | a type can be printed exactly if no part is nil and every user type's name is of letters, digits and underscores |
| GoTexts.TextNeedsImports | cmd/schemagen/map_types.go:16-77 | the printed text of a tree uses a package word exactly if imports are collected for that package, and every dot in it belongs to a package word |
| Generation.ImportsAreExact | cmd/schemagen/schemagen.go:134-163 | the import path of a package is there exactly if the text of some column or of some field of a remaining user type uses its word, and that of cqlx exactly if a user type remains |
| Generation.Render | cmd/schemagen/schemagen.go:95-163 | from the original trees only, in any order and with any sharing: which types the columns end up with, which user types remain, and which imports there are, without repetition |

## Left out

- Sessions, batches of the driver, query wrappers, retries and the test helpers: they forward to code that is not shown.
- Reflection: a struct is a map from field paths to cells, the mapper a map from column names to paths; nested fields are independent cells, and the kinds of a destination are parameters.
- `Iterators.Iter.Scan`: the driver's iterator is a list of rows of which any may fail at some column, and a final error; paging is not modelled. Nothing is said of reading rows that are left from an iterator after `Close`. Strict scanning after a strict failure is not modelled.
- UDT marshalling and `UnsetEmptyTransformer`.
- `Using.TtlSeconds`: the Go code goes through a floating-point number of seconds; here it is integer division by one second, cut toward zero. Overflow of 64-bit integers is not modelled.
- The constructors of comparators, `qb/token.go`, aggregate helpers and the setters that store one flag or limit: each only builds a value or sets a field of the tree that the proofs range over.
- The four ways to add an insert column with another value than its own parameter are one method, `AddColumn`; those of SET are `SetValue`, `AddValue` and `RemoveValue`.
- The string slices inside a table's metadata are values: a client that changes them after making the table is not modelled.
- `Sharing.Serve`: a client does not write into its slices between the calls. Of slices with room that share an array, `Overlaps.ShareIf` and `Overlaps.ShareColumns` take the case of one slice given to two builders.
- `BatchBuilders.FlatBatchFills`: for texts a caller adds with names of its own there is no round trip through the named form, which is proved for statements that builders compile.
- Template execution, formatting, flags and output files of the generator; the filter on table names happens before the model starts.
- Whether Cassandra accepts a statement.
