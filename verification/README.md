# Logb, modelled

Logb is an append-only, framed recording format: a writer that emits frames, a reader
that can enter anywhere, a viewer that indexes and decimates, and importers for CAN
databases and MDF files. This project states what those parts promise and proves it of a
model that follows their code branch by branch. `dafny verify dfyconfig.toml` checks all
of it.

**Bytes and bits.** `Bytes`, `BitOps`, `Wire`, `Format`, `Codec`: fixed-width numbers (which
truncate), key/value blocks, schemas and runs, and the class-based encoder and decoder that
refine them. `Extract`, `Sample`, `Records`, `Pack`: one per-bit definition of a field in
two numberings, and every loop that reads or writes one proved equal to it. `Cells` lays
records out field by field and reads every field back. `Crc` gives CRC-32C (section 12.1 of
RFC 3720) its polynomial recurrence, the table form, and burst detection. `Transpose` is the
column filter.

**The writer and the reader.** `Frames`, `Reading` and `Writing` are the two state machines
on values; `Recording`, `Runs`, `Guarantees`, `Resync`, `Guards` and `IndexFrames` prove
what holds over every run of successful calls: the file scans back to exactly what was
handed over, at every cut, after damage, after concatenation, from any resync, and every
segment restates exactly the holds in force. `Asked` tells from the calls alone which runs a
segment states and each batch carries, and the numbers, times, metadata and attachments
between them. `Failures` says what a failed call leaves behind. `Writer`, `Playing` and
`Reader` are the imperative classes, whose every method is proved to take the step of the
state machine it models.

**The index.** `Indexing` defines the index of a scan as a fold over its events. `Joining`,
`Growing`, `Merging` and `Resuming` show when an index extended over new bytes is the index
of the whole file; `Scanning`, `Extending` and `Recorder` are the three programs that build
one, and `Access` decodes any of its frames without scanning. `Stats` summarises frames,
`Alike` shows an index does not tell a schema from its restatement. `Positions` says where
records stand and what an index then says of its frames, `Restored` what it shows of the
values a segment restates. `Programs` are short programs run on the writer, and
`Counterexamples` the files three of them write, on which extending an index goes wrong.

**Queries.** `Cache` and `Query` serve decoded frames, `Paging` pages and exports records,
`Buckets`, `Decimate` and `Tiers` draw charts from samples or from summaries, `States` and
`Categories` do so for enumerated fields; `Views` says what all of them show of records laid
out field by field.

**Importers.** `Dbc`, `DbcEncode` and `DbcSchema` build CAN frames and the schema that reads
them, `DbcAnswers` says what a frame then shows of what was asked; `Demux` takes interleaved
MDF records apart.

## What the theorems assume

- Compression is any pair of functions of which one undoes the other (`Inverse`); a file is
  under 2^62 bytes where an index is extended (the code itself uses 2^62 as its upper bound)
  and under 2^64 where offsets are stored.
- Floats are their bits in files, and exact reals in scalings, axis positions, statistics
  and charts. What turns a decoded value into a number (`Meter`) and the logarithm (`Logs`)
  are parameters; of the logarithm only that it increases strictly and that its power undoes
  it is used. Where a record stands off time is told of floats that add and multiply as the
  numbers they stand for (`Exactly`). Tick counts wrap in 64 bits when a record's position
  is computed, and are unbounded when they are rebased.
- A writer's program hands over what the wire can hold (`AllOpsFit`): lengths in 32 bits,
  payloads that fit a frame. Of what a caller may change in a schema it has handed over,
  only the axis step is modelled (`OpSetStep`), which is the one exemption the format makes.
- A stream has one schema wherever it is declared, but for its axis step, as the format
  itself requires of every writer: `SameModels`. Random access takes it that no segment
  binds a tag twice (`BoundOnce`) and that a stream has one tag in a segment (`OneTag`).
- A schema that says nothing and one that says "identity" are the same bytes, and so are
  guards of unguarded fields; decoding gives back the schema up to that (`Norm`).

## Where the code does not do what one would say of it

- *Extending an index* equals scanning the whole file if and only if `EpochsAgree` holds, a
  condition on the two indexes that can be checked before they are merged. Its three parts
  are the three ways it fails: the tail's epoch is earlier and something kept from the cache
  stands on time (viewer/index/grow.go:107); the tail restates values on time and has no
  epoch of its own; and, which happens to any growing file, the tail's epoch is later and
  the tail restates values of a stream whose axis is *not* time, because the correction is
  added to every restatement of the tail (viewer/index/grow.go:179-181). `EarlierTail`,
  `SilentRestatement` and `PlainRestatement` are a writer's program each, the file it writes
  and a cut of that file, on which the merged index is not the file's.
- *Writing* notes a batch in the index before it can still fail (writer.go:427). The index
  changes exactly when the failure is the filter's or the codec's, not a guard's
  (`FailedNotes`), and whatever was recorded before, the INDEX frame the file then closes
  with is complete if and only if the call did not fail so (`ClosedAfter`);
  `UnknownCodecNoted` is such a program. The theorems about recordings are over runs in
  which every call succeeds.
- *A group's data* is promised to be exactly that of the records it counts
  (mdf/mdf.go:137-139). Demultiplexing resets only groups that occur (mdf/mdf.go:642), and a
  sorted block goes to the first group alone (mdf/mdf.go:448-454); any other group keeps its
  declared count with no data. The promise is kept if and only if the group was given
  records or its declared ones come to no bytes (`Settle`); where it is not, its records
  cannot all be had (`RecordsThere`), and resolving samples faults (`Resolve`,
  `ResolvedInside`, `NoDataFaults`). `Idle` is such a group.
- *A stored sample offset* in the last four of 64 bits passes the bound check, because the
  sum wraps, and the slice then faults (mdf/mdf.go:774). `FaultsExactly` says for which
  offsets and streams, `FaultReached` shows the eight bytes that do it.
- *The two DBC directions* refuse different things: encoding refuses any signal with
  extended multiplexing, the schema only a multiplexor with it, and the schema also refuses
  guards on a float. `EncodableHasSchema` says that this last is all: a message a frame can
  be built of has a schema if and only if no guard would hang on a float. `FloatMuxRefused`
  is a message with frames and no schema, against what dbc/encode.go promises of its frames,
  and `ExtendedRefused` one with a schema and no frames.

## Model

| member | source | states |
|---|---|---|
| Wire.Buf.Kv | wire.go:35-46 | what is appended for a map is its count and its pairs by ascending key, whatever order the keys come out in |
| Wire.SortedUnique | wire.go:35-46 | a set of keys has one ascending sequence, so equal maps give equal bytes |
| Wire.KvBack | wire.go:169-180 | decoding an encoded map gives the map and leaves what follows it, for every map that fits |
| Wire.Dec.Need | wire.go:98-107 | the first shortage is an error that stays; nothing is consumed |
| Wire.Dec.Int | wire.go:120-145 | a little-endian number, or zero after an error |
| Wire.Dec.Str | wire.go:159-167 | a counted string, or empty after an error |
| Wire.Dec.Kv | wire.go:169-180 | the decoder object reads exactly what the map grammar reads, error or not |
| Codec.AppendConversion | wire.go:48-84 | the conversion's bytes, kind by kind |
| Codec.ReadConversion | wire.go:182-220 | the conversion grammar, with its error cases |
| Codec.ReadCounted | wire.go:222-230 | a counted table of rows |
| Format.ConversionBack | wire.go:182-220 | every conversion comes back, tables as rows |
| Codec.EncodeSchema | writer.go:299-359 | the SCHEMA payload of a schema, flags, guards and sorted metadata included |
| Codec.DecodeSchema | reader.go:432-470 | the schema a payload declares, or nothing when the payload is damaged or its axis mode unknown |
| Format.SchemaBack | reader.go:432-470 | decoding inverts encoding for every schema that fits, up to the identity conversion |
| Format.FieldsBack | reader.go:444-462 | every field of a list comes back in order, guards included |
| Format.RunBack | writer.go:361-367 | a run definition comes back with its parameters |
| Transpose.TransposeRecords | wire.go:234-248 | the in-place loops compute column-major order, and leave the tail as it is |
| Transpose.DetransposeRecords | wire.go:250-264 | the inverse loops compute row-major order |
| Transpose.TransposeBack | wire.go:250-264 | detransposing undoes transposing for all data and every record size |
| Transpose.MdfDetranspose | mdf/block.go:320-332 | MDF's loop over records is the same inverse, and leaves uneven data alone |
| Crc.CrcTable | python/logb.py:72-79 | the table holds the remainder of each byte |
| Crc.Checksum | python/logb.py:85-91 | the table-driven sum is the bitwise polynomial recurrence |
| Crc.PiecesAreWhole | python/logb.py:85-91 | continuing a sum over a second piece is the sum over both |
| Crc.TableByte | python/logb.py:85-91 | one table look-up is eight steps of the register |
| Crc.BurstDetected | reader.go:581-593 | two messages that differ only within four consecutive bytes have different sums |
| Frames.FrameBack | writer.go:507-538 | a frame that was written is the frame that is read, and what follows is left |
| Frames.FrameIsItsBytes | reader.go:562-596 | what reads as a frame is that frame's bytes and nothing else |
| Frames.CutFrameIsDamage | reader.go:562-596 | a frame cut anywhere inside is damage |
| Frames.CutFrames | reader.go:302-312 | a cut keeps exactly the frames wholly before it, and leaves something exactly when it is no boundary |
| Frames.DamageIsSeen | reader.go:581-593 | damage to four consecutive bytes after the length is seen |
| Extract.ExtractBits | convert.go:142-185 | nothing for a width no word holds or a field that leaves the record; otherwise the per-bit value |
| Extract.BigEndianBytes | convert.go:154-161 | the whole-byte path is the per-bit value |
| Extract.BigEndianBits | convert.go:162-167 | the bit loop is the per-bit value |
| Extract.LittleEndianChunks | convert.go:170-184 | gathering a byte's worth at a time and masking is the per-bit value |
| Extract.MotorolaWalk | logb_test.go:939-954 | the reference walk succeeds exactly when the field at the restated offset is in the frame, and reads it |
| Extract.CopyColumn | column.go:182-246 | the strided copies give each record's field and leave the rest of the slice |
| Records.Column | column.go:60-129 | a whole column is what reading field by field gives; when it is copied and which refusal comes otherwise is told exactly, and a refusal writes nothing |
| Sample.BitsOf | mdf/sample.go:141-161 | MDF's bit assembly is the per-bit value |
| Sample.BytesDown | mdf/sample.go:61-65 | reading bytes from the last is the little-endian value of their low 64 bits, however many there are |
| Sample.BytesUp | mdf/sample.go:57-60 | reading them from the first is the big-endian value of their last 64 bits |
| Sample.ChannelBits | mdf/sample.go:26-73 | a numeric channel's stored bits for every width: whole bytes give at most 64 of their bits, any other width no word holds is refused, and so is a channel that leaves the record |
| Sample.ChannelIsField | mdf/convert.go:498-507 | a channel is the field the importer declares for it in the axis-prefixed record |
| Sample.GuardIsValidity | mdf/convert.go:340-352 | the importer's guard holds exactly when MDF calls the sample valid |
| Sample.SignExtendIsTwosComplement | convert.go:188-194 | shifting up and arithmetically down is two's complement in the width |
| Sample.FieldIsShift | python/logb.py:424-430 | in either byte order a field is one shift and one mask of the whole record |
| Pack.Pack | python/logb.py:372-435 | a packed record has exactly the bits its fields set; it is refused exactly when a field given twice disagrees with the bytes around it |
| Pack.PackReads | python/logb.py:392-422 | a field whose bits no other field shares reads back what was packed |
| Pack.SignedBack | python/logb.py:447-451 | masking a signed number that fits and sign-extending it gives it back |
| Records.TailsBack | reader.go:537-558 | every blob of every record's tail comes back, for any number of records and fields |
| Cells.LaidOutDecodes | reader.go:537-558 | records laid out as fixed parts and, behind them, each record's blobs in field order decode to those blobs |
| Cells.CellBack | reader.go:150-180 | a variable field of any record reads as the bytes laid in its own cell, as a blob or a text by its type, wherever it is among the fields; where its guard does not hold it is absent |
| Cells.FixedBack | reader.go:182-187 | a fixed field reads as the number of its own bits in its own record, in its type |
| Cells.GuardedBack | reader.go:149-165 | a guarded field reads as its bits where its discriminator has the value it asks for, and is absent where it has another |
| Reader.ParseTails | reader.go:537-558 | one walk cuts the tail region as the tail grammar does, or refuses |
| Stats.StatIsSummary | viewer/index/stats.go:46-94 | a frame's summary counts the present samples, its bounds are attained and contain them, its ends are theirs, and it says whether they differ |
| Stats.StatAccum.Add | viewer/index/stats.go:46-70 | a sample updates the summary as one more element of the list would |
| Stats.StatsFor | viewer/index/stats.go:100-126 | every field's summary, taken record by record |
| Stats.HappeningCount | viewer/index/stats.go:72-81 | an event field is counted as often as a record has it |
| Views.SummaryOf | viewer/index/stats.go:100-126 | the samples a plain field is summarised by are, record by record, the numbers of their own bits |
| Recording.DataBack | reader.go:472-523 | filtering and compressing a batch is undone on the way back |
| Recording.HoldBack | hold.go:73-101 | a hold decodes to the values, presence and place it restates |
| Recording.StepFollows | writer.go:191-227 | every successful call keeps what the reader knows equal to what the segment declared |
| Runs.RunBatches | writer.go:393-472 | the frames written carry exactly the batches handed over, in call order |
| Runs.LogReplays | reader.go:302-430 | reading a whole recording's frames, from any reader state, gives what was logged |
| Guarantees.RoundTrip | reader.go:302-430 | scanning what any run of successful calls wrote returns exactly the batches handed over, each under its segment's schema, and is not truncated |
| Guarantees.CutAnywhere | reader.go:302-312 | for every cut past the header the scan gives exactly the frames wholly before it, and reports truncation exactly when the cut is no frame boundary |
| Guarantees.DamageStopsTheScan | reader.go:581-593 | damage to four consecutive bytes of a frame stops the scan there, with every earlier event intact |
| Guarantees.Concatenation | reader.go:319-327 | a file appended to another, less its header, scans to the first's batches and then the second's |
| IndexFrames.IndexIsComplete | writer.go:483-504 | every INDEX frame lists every batch before it, by stream and in order, at its true distance back |
| IndexFrames.IndexSurvivesConcatenation | writer.go:483-504 | after concatenation each entry of each INDEX frame still lands on the DATA frame it describes |
| Failures.FailedNotes | writer.go:400-472 | a failed batch emits nothing; its note is left in the index exactly when the guards had let it pass, that is when the filter or the codec refused it |
| Failures.IndexStays | writer.go:423-472 | after any batch, written or refused, the index lists the batches of the log exactly when it was not refused that late |
| Failures.ClosedAfter | writer.go:476-504 | after any recording and one more batch, written or refused, the INDEX frame that closes the file is complete exactly when that batch was not refused late |
| Failures.UnknownCodecNoted | writer.go:423-472 | a program whose last batch has an unknown codec: the batch is refused and the closing INDEX frame lists it |
| Resync.FindSync | reader.go:646-675 | the search finds the first SYNC image whose checksum holds, or that there is none |
| Resync.ResyncRecovers | reader.go:646-675 | unless a SYNC image occurs elsewhere, reading re-enters at the first SYNC frame at or past the cut and is from there the full scan |
| Resync.ResyncFindsNothing | reader.go:646-675 | with no SYNC frame left there is nowhere to enter |
| Resync.SegmentRestates | writer.go:191-297 | every SYNC frame of a recording was opened by a call, BeginSegment or the WriteData that found no segment, and the holds up to the next SYNC frame are, stream by stream, the last set and not cleared before that call, these and no more |
| Resync.ResyncHears | reader.go:646-675 | a reader that resynchronises is at the first SYNC frame past the cut, and hears for each stream the last hold set and not cleared before that segment was opened |
| Asked.BatchRuns | writer.go:160-228 | in every recording each batch comes with the last definition of its run id given while its segment was open, or else the last given and not ended before the call that opened it, or none |
| Asked.SegmentOpens | writer.go:191-228 | the RUN frames every segment opens with are the runs added and not ended before the opening call, in order, these and no more |
| Asked.SegmentRuns | writer.go:160-166 | at any time the RUN frames since the last SYNC frame are the runs in force when its segment was opened and then those added since |
| Asked.RunsNowMore | writer.go:168-183 | ending a run takes every definition of its id out of the runs in force and leaves the others in order; adding one puts it last; no other call changes them |
| Asked.MarksBack | writer.go:191-200 | segments are numbered from zero and carry the times they were given; metadata and attachments come back, all in call order |
| Guards.GuardsAreExact | writer.go:400-422 | a storable batch is accepted exactly when its step is the one the segment's frames declare and its run keeps the stream's runs contiguous |
| Guards.EverySegmentContiguous | writer.go:400-422 | every segment ever emitted has contiguous runs for every stream |
| Writer.Writer.PutFrame | writer.go:507-538 | what the sink gets is the frame's bytes, with its checksum |
| Writer.Writer.AddStream | writer.go:138-152 | a schema is refused for a zero identity or an invalid field, and otherwise gets the next tag, whether or not its identity was registered before, and is stated at once inside a segment |
| Writer.Writer.AddRun | writer.go:160-166 | a run is remembered, and written at once inside a segment |
| Writer.Writer.EndRun | writer.go:181-183 | every run with the id is dropped, in place |
| Writer.Writer.BeginSegment | writer.go:191-228 | a SYNC frame, then every schema, run and hold, and the segment's bookkeeping afresh |
| Writer.Writer.SetHold | writer.go:246-260 | a hold is remembered for later segments, or refused |
| Writer.Writer.ClearHold | writer.go:264-268 | a hold is forgotten |
| Writer.Writer.WriteHold | writer.go:270-297 | a hold's frame, and what a hook hears of it |
| Writer.Writer.WriteSchema | writer.go:299-359 | a schema's frame, and the step this segment declares for it |
| Writer.Writer.WriteRun | writer.go:361-367 | a run's frame |
| Writer.Writer.WriteMeta | writer.go:372-377 | a metadata frame |
| Writer.Writer.WriteAttach | writer.go:380-386 | an attachment's frame |
| Writer.Writer.WriteData | writer.go:393-472 | opens a segment when there is none, then checks, notes and emits the batch; each failure leaves the state the code leaves |
| Writer.Writer.Close | writer.go:476-504 | the INDEX frame and an END frame |
| Writer.PackPresence | hold.go:73-101 | presence flags, eight to a byte, as the reader takes them apart |
| Writer.EncodeIndex | writer.go:483-504 | the INDEX payload: counts and back offsets, stream by stream |
| Writer.ApplyFilter | writer.go:436-448 | the transpose covers the fixed part only, and refuses data too short for it |
| Playing.Play | writer.go:111-128 | whatever calls are made, what has been written is the file of the state they lead to |
| Playing.RecordAndScan | writer.go:393-472 | a program run on the writer and its file read back through the reader: exactly the batches handed over |
| Reader.DecodeBatch | reader.go:472-523 | the batch of a DATA payload, or the error the code gives |
| Reader.DecodeHeld | hold.go:73-101 | the held values of a HOLD payload |
| Reader.Reader.NextFrame | reader.go:562-596 | the next frame with its checksum verified, or damage |
| Reader.Reader.Interpret | reader.go:312-430 | one frame changes the reader exactly as the state machine says |
| Reader.Reader.Next | reader.go:302-430 | the next batch of the scan, or its end and whether it was truncated |
| Reader.Open | reader.go:272-295 | a header is accepted exactly when its magic, checksum and version are right |
| Reader.ReadAll | reader.go:302-430 | reading to the end gives the batches of the scan, and its verdict |
| Scanning.Builder.OnFrame | viewer/index/frames.go:169-184 | the frame index takes one frame: segments, runs, and the DATA frame latched |
| Scanning.Builder.OnSchema | viewer/index/frames.go:187-191 | the segment notes which frame binds a tag |
| Scanning.Builder.OnBatch | viewer/index/frames.go:194-225 | the latched frame is paired with its records' extent |
| Scanning.RebaseFrames | viewer/index/frames.go:229-236 | time bounds move onto the epoch, in place |
| Scanning.NoteHold | viewer/index/scan.go:427-476 | a restatement as a stream keeps it |
| Scanning.RebaseHolds | viewer/index/scan.go:480-487 | restatements move onto the epoch; those off time stay |
| Positions.ClockStarts | logb.go:501-507 | on an implicit time axis the first record stands at the base |
| Positions.ClockSteps | logb.go:501-507 | and each next record a step later, in a word |
| Positions.ClockAt | logb.go:501-507 | record i stands i steps after the base, in signed ticks, for as long as a word holds it |
| Positions.ExplicitAt | logb.go:501-507 | a record with a time of its own stands that many scales after the base |
| Positions.FloatAt | logb.go:508-517 | off time a record stands so many steps from the base, or the ratio so many times over |
| Positions.OwnAt | logb.go:508-517 | or as far as it says itself, scaled |
| Positions.ClockedFrame | viewer/index/frames.go:194-236 | an index entry of n records on an implicit time axis begins at its base, counted from the epoch, and ends n - 1 steps later |
| Positions.NoneBeforeEpoch | viewer/index/scan.go:250-256 | no frame of an index begins before the index's epoch |
| Positions.EpochAttained | viewer/index/scan.go:250-256 | and some frame begins at it |
| Positions.StreamCounts | viewer/index/scan.go:233-247 | the records and the frames an index counts for a stream are those its scan meets |
| Restored.SetIsShown | viewer/index/scan.go:427-476 | a restatement shows nothing for a field the caller did not mark present, and for one he did the number of its own bits, unconverted when the field is enumerated |
| Restored.IndexedHold | viewer/index/scan.go:427-476 | every restatement of a stream that holds something is in the index, with its values, offset, run and place |
| Restored.IndexedFrom | viewer/index/scan.go:427-476 | and every restatement in the index is one that was made, of a stream one of whose fields is held |
| Restored.SampleIsBits | viewer/index/scan.go:327-345 | a sample of a plain field is the number of its own bits in its own record, unconverted when the field is enumerated |
| Scanning.Scanner.Take | viewer/index/scan.go:165-260 | one frame taken in keeps the builder, the streams and the epoch the fold of the events so far |
| Scanning.Scanner.Finish | viewer/index/scan.go:260-308 | the finished index is the fold's |
| Scanning.Scanner.Snapshot | viewer/index/recorder.go:225-267 | an index taken part way is the fold's so far, and disturbs nothing |
| Scanning.ScanToIndex | viewer/index/scan.go:130-150 | a scan of a file builds the index the file has |
| Scanning.ScanTail | viewer/index/scan.go:130-150 | a scan from an offset is biased to whole-file offsets everywhere |
| Extending.MergeHolds | viewer/index/grow.go:169-185 | the cached side gives the restatements before the resume point, the tail the rest, corrected |
| Extending.Reattach | viewer/index/grow.go:200-230 | frames come over with their own summaries, as the merged list has them |
| Extending.MergeTail | viewer/index/grow.go:38-161 | the merged index, or a failure when a frame has lost its summary |
| Extending.Extend | viewer/index/scan.go:74-113 | extending a cached index over a grown file gives the whole file's index exactly when the epochs agree |
| Merging.MergedIsWhole | viewer/index/grow.go:38-161 | on events: merging is the whole's index if and only if the epochs agree |
| Resuming.GrownIndexIsWhole | viewer/index/grow.go:19-161 | on files: for any file and any earlier prefix with a segment to resume at, the merged index is the full scan's if and only if the epochs agree |
| Resuming.LastSync | viewer/index/grow.go:19-31 | the resume point is where a SYNC frame of the scan stands |
| Resuming.ReplayFrom | viewer/index/scan.go:130-150 | a reader started at a SYNC frame meets what the full scan met there |
| Counterexamples.EarlierTail | viewer/index/grow.go:107-115 | the file of a program whose second segment begins earlier: its index extended past the cut is not its index |
| Counterexamples.SilentRestatement | viewer/index/grow.go:169-193 | the file of a program whose second segment restates a value on time and has no record: the extended index is not its index |
| Counterexamples.PlainRestatement | viewer/index/grow.go:179-181 | the file of a program whose second segment begins later and restates a value off the time axis: the extended index is not its index |
| Alike.IndexAlike | viewer/index/recorder.go:89-117 | the index does not tell a schema as handed over from the schema as read |
| Recorder.Recorder.Call | viewer/index/recorder.go:155-214 | a call through the recorder writes as the writer does, and what it wrote is taken into the index |
| Recorder.Recorder.File | viewer/index/recorder.go:225-267 | the index so far, at any time, without disturbing what follows |
| Recorder.RecordIndexed | viewer/index/recorder.go:89-267 | for every run of successful calls on streams without variable fields, asking for the index wherever one likes, the recorder's index is the one a scan of the bytes builds |
| Access.Accessor.PrefixFor | viewer/index/access.go:192-242 | the header, SYNC, SCHEMA and every RUN of the segment, cached or built |
| Access.Accessor.Decode | viewer/index/access.go:92-102 | decodes what the specification of group-by-group decoding does |
| Access.GroupDecodes | viewer/index/access.go:128-184 | frames of one segment behind the synthesized prefix decode to what the full scan gave |
| Access.AccessAgrees | viewer/index/access.go:92-184 | any selection of an index's frames, in any order and across segments, decodes to the scan's batches one for one |
| Cache.BatchCache.Get | viewer/query/cache.go:41-52 | a hit is what was put there, and becomes the most recent; hits and misses are counted |
| Cache.BatchCache.Put | viewer/query/cache.go:54-81 | the new frame is first and the least recent go until the rest fit; map, list and byte count stay in step |
| Cache.EvictedIs | viewer/query/cache.go:72-80 | what is left is the longest most-recent part that fits the budget |
| Cache.AddedSound | viewer/query/cache.go:54-81 | a frame that fits survives its own insertion, and the budget holds |
| Cache.HistoryKept | viewer/query/cache.go:41-81 | after any history of uses the entries are distinct, within budget, and in the order of last use |
| Query.Query.Batches | viewer/query/query.go:168-222 | at each position the batch the full scan gave for that frame, from the cache or decoded, and the cache stays faithful |
| Query.ServedOne | viewer/query/query.go:168-222 | that batch is what decoding the frame alone gives |
| Paging.IndexDescribes | viewer/index/frames.go:194-225 | every entry of an index describes the batch its frame holds |
| Paging.OrderedIsStraight | viewer/index/frames.go:64-76 | when no record stands before an earlier one, every record lies within its frame's extent |
| Views.RecordsListed | viewer/index/record.go:47-63 | the records pages and exports are taken from are all there are, frame after frame: each where it stands, with its run and, field by field, the bits and blobs laid out for it |
| Paging.WindowMissesNothing | viewer/query/records.go:151-163 | for straight frames the records shown of the frames a window picks are all those of the run's frames that stand in the window, in order |
| Paging.ReadPage | viewer/query/records.go:40-101 | of all records of the run's frames that stand in the window, a page is the offset's slice, with More exactly when records follow, or a prefix of it when the decode budget ran out; Total never undercounts, and is flagged exact, and is, just when no frame of the run lies over an edge of the window |
| Paging.EachRecord | viewer/query/records.go:114-135 | the export is every record of the run's frames that stands in the window, in order, and leaves the cache alone |
| Paging.CountRecords | viewer/query/records.go:142-148 | a count no less than the records of the run's frames that stand in the window, and equal to it when no frame lies over an edge of the window |
| Paging.DeclaredBounds | viewer/query/records.go:48-54 | the declared count is at least the number of records shown, and equal to it when every frame is inside the window |
| Buckets.BucketInWindow | viewer/decimate/decimate.go:258-270 | a place in the window is in one of the buckets |
| Buckets.BucketOrder | viewer/decimate/decimate.go:245-270 | buckets follow the axis, linear or logarithmic |
| Buckets.CentreInBucket | viewer/decimate/decimate.go:272-282 | the position a bucket is drawn at is in that bucket |
| Buckets.EdgesAreEven | viewer/decimate/decimate.go:272-278 | the edges divide the window evenly, or its logarithms, from one end to the other |
| Buckets.BetweenEdges | viewer/decimate/decimate.go:258-278 | what is in a bucket lies between its edges, on the right one only at the window's end |
| Buckets.CentreIsMiddle | viewer/decimate/decimate.go:280-282 | a bucket is drawn half way between its edges |
| Decimate.Range | viewer/decimate/decimate.go:72-77 | of a sorted series, exactly the samples of the window |
| Decimate.Numeric | viewer/decimate/decimate.go:85-143 | few samples as they are; otherwise each bucket's count is that of its present samples and its bounds are attained by them |
| Decimate.EverySampleOnce | viewer/decimate/decimate.go:122-127 | each present sample of the window is counted in exactly one bucket |
| Decimate.SpanCovers | viewer/decimate/stats.go:127-150 | any place of the window within a frame's extent is in a bucket the frame covers |
| Decimate.SpanTight | viewer/decimate/stats.go:127-150 | a frame covers no bucket before that of its first place or after that of its last |
| Decimate.NumericFromStats | viewer/decimate/stats.go:36-79 | each bucket's bounds are the widest of the frames that cover it, and its count is positive exactly when there is one |
| Decimate.DensityKept | viewer/decimate/stats.go:61-76 | all the counts of such a chart together are no more than the samples of the frames drawn, or one for each bucket where a frame has fewer samples than buckets, and less only by what does not divide |
| States.RunLength | viewer/decimate/decimate.go:197-223 | consecutive samples of one value, or of none, are one band that starts at the first of them and ends where the next begins |
| States.RunHolds | viewer/decimate/decimate.go:197-223 | every sample of a sorted series lies within the band it was put in |
| States.Categorical | viewer/decimate/decimate.go:151-189 | few samples become runs; otherwise each bucket is empty exactly when no present sample falls in it, and mixed exactly when two of different values do |
| States.CategoricalFromStats | viewer/decimate/stats.go:87-113 | what the frames say within the window, in order, neighbours alike made one band from the first's start to the last's end; for frames in turn every value a frame may hold is admitted where it may be |
| Tiers.SeriesFrom | viewer/index/series.go:16-54 | the samples of the batches, record by record, those without a position left out |
| Views.SeriesDrawn | viewer/index/series.go:16-54 | the samples of a chart are one a record, frame after frame: each where its record stands, with the number of its record's own bits |
| Tiers.IndexedRow | viewer/query/query.go:142-161 | the summary at a frame's ordinal is of the batch that frame holds |
| Tiers.FrameStats | viewer/query/query.go:142-161 | each frame's extent and summary, found by offset |
| Tiers.Envelope | viewer/query/query.go:79-98 | the exact reduction of all samples of the run in the window when the frames fit the budget, otherwise an envelope that covers every one of them; an empty chart when there is none |
| Tiers.RunWindow | viewer/query/query.go:239-247 | the samples in the window of the frames picked are all those of the run's frames |
| Tiers.StreamBuckets | viewer/query/query.go:249-256 | a stream's chart divides a positive window evenly in logarithms when its axis is logarithmic, and any other evenly |
| Tiers.SampleCovered | viewer/decimate/stats.go:36-79 | every present sample of the window lies in a bucket the summaries populate, within its bounds |
| Tiers.TierSound | viewer/decimate/stats.go:36-79 | the summaries' envelope populates and contains every bucket the exact one populates |
| Categories.BandsSound | viewer/decimate/stats.go:87-113 | over frames whose samples never go back, the bands made of the index's own summaries admit every present sample of the window at its place |
| Categories.BucketAdmitted | viewer/decimate/stats.go:87-113 | what a bucket of the exact reduction holds is admitted by those bands within that bucket |
| Categories.BandTells | viewer/decimate/stats.go:87-113 | each band made of summaries is absent, mixed or of one value just as the samples of its first and last frames are none, differ or all are that value, and reaches from where the first begins to where the last ends |
| Categories.FrameTold | viewer/decimate/stats.go:87-113 | every frame the window reaches is told so by some band |
| Categories.SortedInTurn | viewer/query/query.go:142-161 | when the samples never go back, the summaries of the frames that hold some are in turn |
| Categories.StatesOf | viewer/query/query.go:101-126 | runs or buckets of all samples of the run in the window when the frames fit the budget, otherwise the bands of their summaries, which deny none of those samples; none in the window is no band |
| Dbc.RawValue | dbc/encode.go:117-198 | a signal's raw bits from a name, a number, a flag or its start value, or why there are none |
| Dbc.FitBack | dbc/encode.go:202-240 | bits that fit stand for the value they were made from |
| Dbc.HalfStep | dbc/encode.go:185-198 | a number that is accepted decodes to within half a factor of itself |
| DbcEncode.OffsetIsMotorola | dbc/dbc.go:129-134 | the restated offset is where the Motorola walk starts |
| DbcEncode.Put | dbc/encode.go:266-289 | exactly the signal's bits are written, in its byte order, or nothing when it does not fit |
| DbcEncode.PutReads | dbc/encode.go:266-289 | what was put reads back as the field |
| DbcEncode.Claim | dbc/encode.go:247-260 | every bit of the signal is claimed, or the owner of one that was taken is named |
| DbcEncode.Encode | dbc/encode.go:44-113 | a frame is built exactly when every selected signal has a value that fits, none unselected is named and no two share a bit; it then holds their raw values and is zero elsewhere |
| DbcSchema.FieldOf | dbc/schema.go:165-226 | the field that reads a signal past the axis, or that it does not fit |
| DbcSchema.Validate | logb.go:466-489 | guards must name an exact, unguarded field that is not their own |
| DbcSchema.SchemaFields | dbc/schema.go:106-161 | the axis, the multiplexor, then the rest in order, guarded; a schema exists exactly when there is one multiplexor at most, it fits, and no guard hangs on a float |
| DbcSchema.EncodableHasSchema | dbc/schema.go:106-161 | a message a frame can be built of has a schema if and only if no guard would hang on a float |
| DbcSchema.FloatMuxRefused | dbc/encode.go:44-113 | a message whose multiplexor is a float: a frame can be built of it and it has no schema |
| DbcSchema.ExtendedRefused | dbc/schema.go:106-161 | a message with a signal of a second level of multiplexing: it has a schema, and no frame can be built of it |
| DbcSchema.DecodesBack | dbc/schema.go:136-159 | every selected signal reads back its raw value through the schema, and every other is absent |
| DbcSchema.DecodesNear | dbc/encode.go:185-198 | a number asked of an integer signal reads back to within half a factor |
| DbcAnswers.FlagBack | dbc/encode.go:164-170 | a one-bit signal asked for a flag reads back as that flag |
| DbcAnswers.NameBack | dbc/encode.go:133-153 | a signal asked for by name reads back as a key of its table whose text is that name |
| DbcAnswers.NameText | dbc/schema.go:165-226 | and the conversion of the field that reads it gives that text to the number, and no other |
| DbcAnswers.StartBack | dbc/encode.go:119-129 | a signal not asked for reads back as its start value |
| DbcAnswers.NumberBack | dbc/encode.go:175-198 | a number asked for lies within the range the database declares and reads back, through the conversion of its own field, to within half a factor |
| DbcAnswers.FloatBack | dbc/encode.go:186-214 | a number asked of a float signal reads back as the float that scales to it, in the signal's width |
| DbcAnswers.Answered | dbc/encode.go:115-234 | a signal has bits if and only if it has a start value or is asked for a name of its table, a flag or a number in its declared range, and the least such key, the nearest whole number (halves away from zero) or the float is one its bits can stand for |
| Demux.TakeRecord | mdf/mdf.go:659-685 | one turn of the walk: a record, the end, or an id without a group |
| Demux.CutWalk | mdf/mdf.go:659-685 | a block of whole records cut at any byte walks to exactly the records before the cut, without complaint |
| Demux.WalkCovers | mdf/mdf.go:659-685 | of any block, the records found are what it starts with, and what is left starts no further record |
| Demux.Measure | mdf/mdf.go:634-643 | the sizing pass finds which groups occur and how many bytes each gets |
| Demux.Demux | mdf/mdf.go:626-650 | each group that occurs holds exactly its own records in a buffer made for exactly them; any other, and every group of a block that does not walk, is as it was |
| Demux.CutProjects | mdf/mdf.go:626-650 | for any interleaving cut anywhere, a group's share is the concatenation of its records before the cut, in order |
| Demux.LoggedBack | mdf/mdf.go:659-699 | whatever a logger interleaves, cut anywhere, each group gets exactly the records logged under its own id before the cut, in order |
| Demux.ShareSize | mdf/mdf.go:659-685 | what a fixed group is given is as long as so many of its records |
| Demux.Settle | mdf/mdf.go:448-457 | a sorted block goes to the first group, cut to whole records, an unsorted one to those that occur; a fixed group then holds exactly its records' bytes if and only if it was given some or its declared ones come to none |
| Demux.RecordsThere | mdf/mdf.go:154-158 | every record a group counts can be had if and only if its data is long enough for all of them |
| Demux.ResolvedInside | mdf/mdf.go:728-735 | a group with no data, or the data of its records, is resolved without a slice past that data if and only if it holds what it promises |
| Demux.FaultsInside | mdf/mdf.go:728-735 | where the data is long enough a record faults exactly when the offset it stores does |
| Demux.NoDataFaults | mdf/mdf.go:728-735 | a group that counts records and has no data faults at the first, exactly when a record has room for an offset |
| Demux.Idle | mdf/mdf.go:626-650 | a group of five declared records and a block without it: it counts five, holds none, and its samples fault |
| Demux.RecordCount | mdf/mdf.go:479-488 | as many whole records as fit, or fewer if the file says so |
| Demux.SampleBack | mdf/mdf.go:773-786 | reading at the offset where a sample was stored returns that sample |
| Demux.FaultsExactly | mdf/mdf.go:773-786 | reading faults exactly at the last four offsets of 64 bits, when what is left of them after the sum wraps is within the stream |
| Demux.FaultReached | mdf/mdf.go:773-786 | a record can store such an offset, and reading it against no signal data faults |
| Demux.Resolve | mdf/mdf.go:703-744 | every record's offset resolved to its sample; it fails or faults exactly as the first record that points at no sample does, or at once on a count below zero |
| Demux.ResolvesCut | mdf/mdf.go:703-744 | a record that stores where a sample starts is resolved to that sample |

## Left out

- zstd and deflate, SHA-256, UUIDs and gob are library code; compression enters as an inverse pair.
- Files, sockets, HTTP, the browser, progress and the sidecar of a cached index: a cached index is taken as given.
- Run parameter lists, metadata, attachments and the list of unsupported frames in an index, and the order in which its streams are listed: a file's streams are a map.
- Segments of an index are values; that merging renumbers the cached segments in place through shared pointers is not captured.
- The axis span of a stream, which is the least and greatest of its frames' extents.
- Conversions' arithmetic, labels, units and formatting: a decoded value becomes a number by a parameter.
- IEEE rounding, 32-bit builds, and the wrap of a tick count when it is moved onto an epoch.
- Recordings in which a call failed, beyond the one batch of `Failures.ClosedAfter`; sink errors; and a batch for a stream that was never registered.
- Writer.Writer.AddStream: a schema object is registered once; one under an identity used before has as many fields and as long a record as the first, so that a hold fits both; a recording registers each identity once (`AllOpsFit`).
- Writer.Writer: hooks are a list of what they were called with, so a hook that calls the writer back is outside the model.
- Scanning.Scanner.Take: the events are taken in the order the reader's hooks are called in.
- Recorder.Recorder.Call: nothing is promised of the recorder's index after a call that failed.
- Recorder.RecordIndexed: whether the file was closed is not the recorder's to say, so it is not compared.
- Query.Query.Batches: the groups are decoded one after the other; they share nothing but the accessor's prefixes.
- Tiers.TierSound: the count of a bucket from summaries is an indication of density and is not compared with the exact count of that bucket, only their sum with the samples (`Decimate.DensityKept`); the windows' frames hold fewer than 2^31 records.
- Event lanes and `Stream.HoldAt`; the labels of enumerated values, which are a function of the value.
- DBC text parsing, the MDF block graph, SPICE headers and the diagram generator.
- DbcSchema.FieldOf: a field's unit, description and metadata, which no bit depends on.
- DbcSchema.SchemaFields: descriptions, units and metadata of a schema; a value table's keys are taken as exactly representable.
- Demux.Resolve: the stream found through the channel's link is a parameter.
- Pack.Pack: only numeric fields, and which of them are packed and which derived is a parameter; variable fields' tails are `Records.TailsBack`.
