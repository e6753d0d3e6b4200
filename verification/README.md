# SqlReview: a verified model of its Kafka client, SQL fingerprinter and MySQL wire layer

SqlReview collects SQL statements, reduces them to fingerprints and reviews them. It carries its own copies of a
Kafka client and of a MySQL driver. This project models the parts of that code whose correctness is hardest to see,
and proves what they promise for all inputs, all interleavings and all reachable states. `dafny verify dfyconfig.toml`
checks everything.

| files | what they model |
|---|---|
| `ProducerProtocol`, `ProducerPath`, `ProducerShape`, `ProducerInvariant`, `ProducerHandler`, `ProducerGuarantees`, `ProducerOutcomes`, `ProducerProgress`, `ProducerRetries` | the retry protocol of the asynchronous producer |
| `ProduceSet`, `BrokerRefs` | the batches it builds, and the broker producers it shares |
| `Wrappers`, `Wire`, `Encoder`, `Decoder`, `RecordBatches`, `BatchCodec`, `MessageSets`, `FetchBlocks`, `Layouts` | the Kafka wire format |
| `Consumer`, `Delivery` | what a consumer makes of a fetch response, with transactions, and of the bytes of a producer |
| `OffsetManager`, `ClientMetadata`, `Balance` | committed offsets, cluster metadata and group balancing |
| `Fingerprint`, `FingerprintScanner`, `FingerprintLiterals`, `FingerprintReach`, `FingerprintNumbers`, `FingerprintLists`, `FingerprintComments`, `FingerprintTokens`, `FingerprintMeaning`, `FingerprintLeaks`, `FingerprintCase` | the SQL fingerprinter |
| `MySqlPackets`, `MySqlConnection`, `SqlLiterals`, `Interpolation` | MySQL packets, string literals and interpolation |

## How to read the model

**Producer.** One topic-partition is a state machine. The dispatcher, the topic producer and the partition's channel are
one FIFO queue (`handlerQueue`), the retry handler is another (`retryQueue`), and every broker producer the partition
has ever used is a record with its input, its buffer and the one set that is at the broker. What other partitions do
to a shared broker producer appears as steps that may happen at any time. Leader lookups and broker responses are any
values. The model fixes `Idempotent = false` and `Retry.Max >= 1`. The wait group is the partition's share of
`inFlight`. Messages keep their retry count when they are returned, though the code clears it, so that the theorems
can speak about it. `ProducerOutcomes` says why a message is returned, as a success or as an error, `ProducerRetries`
what goes back after a retriable error or a lost connection, and `ProducerProgress` that from every reachable state some
sequence of steps settles everything. The proof of the order lays all live messages out as one path from the oldest to
the newest place and shows that a user message never overtakes another one of a lower or equal retry level that was
received before it.

**Codec.** A `Script` is the trace of calls that an `encode` method makes, with pushes and pops paired. The two encoder
passes are classes that run such a script; `WireForm` says what bytes it stands for. The decoder is a class whose
getters are proved equal to functions on the bytes that are left. Checksums and compression are arbitrary functions;
round trips ask only that a codec gives back what it was given. Times are nanoseconds since 1970 within 64 bits, or the
zero time, which the producer leaves in every batch it builds.

**Fingerprinter.** `Fingerprint` gives the loop body as functions on its variables; `FingerprintScanner` is the
loop itself, over an output array, and is proved to compute the same. Queries are ASCII, so that a position in the
query is an index. An index out of range is an outcome of the model, and so is output that no longer fits the array.
A scan is complete if it returns a fingerprint and has not lost output. `FingerprintTokens` has a reference reading of
queries made of words, values, lists of values and comments, which knows nothing of states and offsets, and
`FingerprintMeaning` proves that the scan returns it. `FingerprintLiterals`, `FingerprintNumbers`, `FingerprintLists`
and `FingerprintComments` are about one place in an arbitrary query.

**MySQL.** The network returns any positive number of bytes per read and may fail on any write. Buffers are arrays,
and the headers of split packets are written over bytes that have been sent, as in the code.

### Where the code does less than it seems to

- A batch that gives a consumer no message makes it skip one offset (kafka/consumer.go:548-550). If a response begins
  with batches that end below the offset the consumer waits for, records behind them can be passed over.
  `Consumer.SkipCanLose` is an example, `Consumer.ExactlyVisible` says what is handed on in every case, and
  `Consumer.LostIffSkipped` says exactly when nothing is lost.
- A compressed batch with more records than compressed bytes is refused by the decoder, because the record count is
  compared with the bytes that are left (kafka/real_decoder.go:85-87). `BatchCodec.CompressedRefused` has such batches,
  under a codec that loses nothing, and `BatchCodec.BatchRoundTrip` the exact condition; without compression the case
  cannot occur.
- A string literal is read back as written only if no quote follows it directly in the query;
  `SqlLiterals.LiteralReadBack` is an equivalence.
- The fingerprinter compares an offset in the query with the constant 2 (lib/fingerprint.go:475). If a query begins
  with an empty literal, text before a comment can be lost that is kept after any other literal.
  `FingerprintLiterals.LiteralBoundary` has the exact condition, and `FingerprintLiterals.BeginsWithLiteral` the example.
- The same constant tells numerals of different lengths apart if one of them ends within the first two characters of
  the query. `FingerprintNumbers.NumeralBoundary` has the exact condition, and `FingerprintNumbers.TellsApart` the
  examples.
- The documentation of `Fingerprint` says that comments are removed. The scan writes nothing while it is in a comment,
  but if the next character does not begin a new stretch of text, the comment is copied with what follows it: the
  fingerprint of `a /*b*/5` is `a /*b*/?` (lib/fingerprint.go:688-696). `FingerprintLeaks.CommentBoundary` says for
  which characters, and `FingerprintLeaks.Leaks` has a query for each of the others. And a word that a comment touches
  is lost with it: `FingerprintMeaning.TouchedIsLost` is the query `a/*b*/c`, and `FingerprintTokens.TouchingTaken` says
  so of every such word.
- The output array is as long as the query, but a list of a single character just behind its word is longer in the
  fingerprint (lib/fingerprint.go:301-312). If nothing else has made room, the fingerprint is lost:
  `FingerprintMeaning.ListOfOneIsLost` is the query `in(1)`, and `FingerprintMeaning.Meaning` the exact condition.
- The fingerprint of a CALL keeps the letter case of the procedure name (lib/fingerprint.go:618), and an administrator
  command is returned as it is (lib/fingerprint.go:644-649), although the documentation of `Fingerprint` says that
  everything is put in lower case. `FingerprintCase.CallKeepsCase` is an example, and `FingerprintCase.LowerCase` says
  exactly when a fingerprint has an upper-case letter.

## Model

| member | source | states |
|---|---|---|
| `ProducerGuarantees.OrderKept` | kafka/async_producer.go:506-621 | in every reachable state the acknowledged messages are in the order in which the partition received them, each once, through failed sets, lost connections, leader changes and any number of retry levels |
| `ProducerGuarantees.ChasersKept` | kafka/async_producer.go:537-621 | no reachable state has dereferenced a missing broker producer; retry counts stay within Retry.Max; a chaser is expected at a level exactly when one fin of that level is under way, and only up to the high watermark; a fin at a broker producer waits in its input and is about to be sent back; only user messages are acknowledged or failed |
| `ProducerGuarantees.Conserved` | kafka/async_producer.go:1020-1060 | every message handed in is in exactly one place: acknowledged, failed or under way; the wait group counts what is under way, markers and the shutdown request included |
| `ProducerGuarantees.ClosedIsEmpty` | kafka/async_producer.go:1002-1018 | once shutdown has passed the wait group, no queue, buffer or broker producer holds anything, and each message has exactly one success or one error |
| `ProducerGuarantees.NextKeeps` | kafka/async_producer.go:302-357 | every step of every actor keeps the invariant behind the four guarantees |
| `ProducerGuarantees.InitHolds` | kafka/async_producer.go:478-513 | the invariant holds initially, with or without a prefetched leader |
| `ProducerGuarantees.ReachableInv` | kafka/async_producer.go:302-357 | the invariant holds in every reachable state |
| `ProducerGuarantees.Received` | kafka/async_producer.go:708-754 | one turn of a broker producer's loop keeps the invariant: syn, fin, retry state, a message that does not encode, and batching |
| `ProducerGuarantees.Responded` | kafka/async_producer.go:838-922 | a response keeps the invariant, whether it accepts, rejects or fails the partition's set in a retriable way; which of them returns which message is `RespondReturns` below |
| `ProducerGuarantees.ConnectionLost` | kafka/async_producer.go:952-971 | marking a broker producer as closing, at any time, keeps the invariant: its contents now count as messages to be retried |
| `ProducerGuarantees.Redispatched` | kafka/async_producer.go:976-1000 | moving the head of the retry queue to the end of the partition's queue keeps the invariant, order included |
| `ProducerOutcomes.AcknowledgedIff` | kafka/async_producer.go:838-866 | for every run and every message: it is among the successes if and only if some step of the run was a broker's acceptance of a set that held it, at a broker producer that was not sending everything back |
| `ProducerOutcomes.FailedIff` | kafka/async_producer.go:1020-1060 | for every run and every message: it is among the errors if and only if some step refused it on submission, rejected its set, found it out of retries, unable to be encoded, or without a leader to be sent or flushed to |
| `ProducerOutcomes.RespondReturns` | kafka/async_producer.go:857-884 | a response adds to the successes exactly what it accepts and to the errors exactly what it rejects |
| `ProducerOutcomes.HandleReturns` | kafka/async_producer.go:537-621 | the partition producer returns only errors, and exactly those of messages that it finds no leader for |
| `ProducerOutcomes.ReceiveReturns` | kafka/async_producer.go:708-754 | a broker producer returns a message from its input exactly if it is out of retries or cannot be encoded |
| `ProducerProgress.CanSettle` | kafka/async_producer.go:302-357 | from every state that satisfies the invariant some sequence of steps leaves nothing under way, with the phase kept: there is no deadlock |
| `ProducerProgress.CanClose` | kafka/async_producer.go:1002-1018 | from every such state the producer can be closed |
| `ProducerProgress.CanDeliver` | kafka/async_producer.go:506-621 | a producer that takes messages can have the next one acknowledged, with at most one retry |
| `ProducerRetries.RetriableBounces` | kafka/async_producer.go:886-922 | after a retriable error the set at the broker, the buffer and the input up to and including the fin go back in order, each one level up or, without a retry left, to the errors, and nothing else changes; then the broker producer serves the partition again with what came behind the fin |
| `ProducerRetries.LostSendsBack` | kafka/async_producer.go:952-971 | after a lost connection everything that the broker producer holds for the partition goes back in order in the same way, and nothing is left |
| `ProducerRetries.LostForGood` | kafka/async_producer.go:952-971 | in no later state of any run does an answer through a lost connection count |
| `ProducerHandler.WatermarkRaised` | kafka/async_producer.go:578-592 | for a message above the high watermark there is a broker producer to give up, a fin goes behind everything sent to it, and the invariant is kept |
| `ProducerHandler.BuffersFlushed` | kafka/async_producer.go:594-621 | going down level by level, sending each buffer or failing it for lack of a leader, keeps the invariant and stops at an expected chaser or at level 0 |
| `ProducerHandler.DispatchLevel` | kafka/async_producer.go:562-576 | dispatching the head of the queue at the current level, to the broker producer or to the errors, keeps the invariant |
| `ProducerHandler.LeaderUpdated` | kafka/async_producer.go:623-639 | selecting a leader keeps the invariant, touches only the broker producers, the current one and the wait group, and succeeds exactly if there is a leader |
| `ProducerHandler.DispatchHigher` | kafka/async_producer.go:537-541 | a message above the high watermark is dispatched after a new watermark, and the invariant is kept |
| `ProducerHandler.DispatchLower` | kafka/async_producer.go:542-550 | a message below the high watermark is buffered at its level ahead of everything newer, and the invariant is kept |
| `ProducerHandler.DispatchChaser` | kafka/async_producer.go:551-559 | a fin that comes home ends its level, and the invariant is kept |
| `ProducerInvariant.Acknowledge` | kafka/async_producer.go:1037-1045 | moving the set at the broker to the successes keeps the invariant, in which acknowledged messages precede every live one |
| `ProducerInvariant.Bounce` | kafka/async_producer.go:1047-1060 | moving the first message that a broker producer must send back to the retry queue, one level up, keeps the invariant |
| `ProduceSet.Set.Add` | kafka/produce_set.go:30-117 | a message is appended to its partition: its record has the key, value and headers of the message and the time since the first one, the earlier records stay, counters and sizes remain the sums of the estimates, other partitions stay, and `wouldOverflow` was true exactly if the result exceeds one of the three limits |
| `ProduceSet.BuildBatch` | kafka/produce_set.go:119-150 | the batch that is sent has the records of the partition in order, numbered from zero, and the last number as its last offset |
| `ProduceSet.HeldEstimate` | kafka/async_producer.go:215-231 | the estimate of a record is the size of its message |
| `ProduceSet.Set.DropPartition` | kafka/produce_set.go:201-213 | dropping a partition returns its messages, takes exactly its size and count off the counters, and leaves the others alone |
| `ProduceSet.Set.AddBounded` | kafka/produce_set.go:215-235 | a message that does not overflow is appended to its partition and keeps the limits: a partition has one message or is below MaxMessageBytes, the count is within Flush.MaxMessages, and the bytes are below the request limit |
| `ProduceSet.Set.DropBounded` | kafka/produce_set.go:201-213 | dropping a partition keeps the limits |
| `ProduceSet.Accept` | kafka/async_producer.go:744-754 | a message that fits is appended behind those of its partition; one that would overflow waits until responses have made room for it, or the set has been sent and a new one begun, or it must be retried; the limits are kept for every set |
| `ProduceSet.WaitForSpace` | kafka/async_producer.go:800-818 | for all responses that come in before the broker takes the set: which of them are handled, and what the set then holds |
| `ProduceSet.HandleAnswer` | kafka/async_producer.go:826-836 | a response takes the failed partitions out of the set, or all of them with the connection, and keeps the limits |
| `ProduceSet.AnsweredOnly` | kafka/async_producer.go:800-818 | responses take whole partitions away and change no other |
| `ProduceSet.BatchWithinLimit` | kafka/async_producer.go:338-341 | with messages that the dispatcher admits, the encoded records of a partition never exceed MaxMessageBytes |
| `ProduceSet.TotalMinus` | kafka/produce_set.go:15-21 | the sum over the partitions does not depend on the order in which a map is gone through |
| `ProduceSet.RecordShort` | kafka/record.go:8-12 | the encoded record never exceeds the overhead constant plus its keys, values and headers |
| `ProduceSet.RecordTight` | kafka/record.go:8-12 | and the estimate exceeds it by at most 29 bytes and eight for each header |
| `ProduceSet.RecordsShort` | kafka/produce_set.go:146-158 | the encoded, uncompressed records of a partition, numbered from zero, never exceed their estimate |
| `ProduceSet.EncodedFits` | kafka/produce_set.go:84-100 | batch overhead and encoded records together never exceed the bytes counted for the partition, whatever the times, for sets below 2 GiB |
| `BrokerRefs.Producers.GetBrokerProducer` | kafka/async_producer.go:1062-1077 | the broker producer of the broker, or a new one, gets one more holder, and every count stays the number of holders |
| `BrokerRefs.Producers.UnrefBrokerProducer` | kafka/async_producer.go:1079-1092 | the input is closed if and only if the last holder lets go, and a closed broker producer is no longer offered |
| `BrokerRefs.Producers.AbandonBrokerConnection` | kafka/async_producer.go:1094-1104 | the broker producer is offered to nobody any more, and its holders keep their references |
| `BrokerRefs.HeldIsOpen` | kafka/async_producer.go:565-592 | what a partition producer holds is not closed, so nothing is sent to a closed input |
| `BrokerRefs.ClosedOnce` | kafka/async_producer.go:1083-1086 | an input is closed exactly when nobody holds the broker producer, and at most once |
| `Wire.SignedBe` | kafka/real_encoder.go:18-36 | a signed integer of any width is recovered from its big-endian bytes |
| `Wire.ReadWritten` | kafka/real_decoder.go:64-76 | an unsigned varint is read back from its first byte on, within the ten bytes that the reader allows |
| `Wire.VarintReadBack` | kafka/real_decoder.go:64-76 | every 64-bit value is recovered from its zigzag varint, whatever follows it |
| `Encoder.PrepEncoder.Put` | kafka/prep_encoder.go:18-93 | the count grows by what the second pass will write, and an argument that is too long is the only error |
| `Encoder.PrepEncoder.Push` | kafka/prep_encoder.go:134-138 | the field remembers its offset and space is counted for it, from a length that may be stale |
| `Encoder.PrepEncoder.Pop` | kafka/prep_encoder.go:140-148 | a varint length gets the size of what it covers, and the count is corrected by the change in its width |
| `Encoder.PrepEncoder.Run` | kafka/prep_encoder.go:11-148 | for every nesting the first pass counts exactly the bytes of the wire form and leaves the right length in every field, whatever the fields held before |
| `Encoder.RealEncoder.Put` | kafka/real_encoder.go:18-86 | the item is written at the offset and nothing else in the buffer changes |
| `Encoder.RealEncoder.Push` | kafka/real_encoder.go:139-143 | the field remembers its offset, and space is left for it |
| `Encoder.RealEncoder.Pop` | kafka/real_encoder.go:145-151 | the length or checksum of what follows is written over the space left for it |
| `Encoder.RealEncoder.Run` | kafka/real_encoder.go:9-151 | within the size that the first pass found, the second pass writes the wire form, stays in bounds, and touches nothing else |
| `Encoder.Encode` | kafka/encoder_decoder.go:16-41 | the buffer sized by the first pass is exactly filled and holds the wire form; encoding fails if and only if an argument or the packet is too long |
| `Decoder.RealDecoder.ReadInt` | kafka/real_decoder.go:24-62 | the next bytes as a signed integer, or an error if they are not there |
| `Decoder.RealDecoder.ReadVarint` | kafka/real_decoder.go:64-76 | the next varint, with its errors for truncation and overflow |
| `Decoder.RealDecoder.ReadArrayLength` | kafka/real_decoder.go:78-92 | an array length, unless it exceeds the bytes left or 131070 |
| `Decoder.RealDecoder.ReadRawBytes` | kafka/real_decoder.go:272-283 | that many bytes, unless the length is negative or too large |
| `Decoder.RealDecoder.ReadBytes` | kafka/real_decoder.go:107-117 | a byte string with a four-byte length, where -1 is null |
| `Decoder.RealDecoder.ReadVarintBytes` | kafka/real_decoder.go:119-129 | a byte string with a varint length, where -1 is null |
| `Decoder.RealDecoder.PeekInt8` | kafka/real_decoder.go:293-299 | a byte further on, without moving |
| `Decoder.RealDecoder.Push` | kafka/real_decoder.go:303-324 | a length is read, or a checksum skipped, and checked later from this offset on |
| `Decoder.RealDecoder.Pop` | kafka/real_decoder.go:326-332 | the field is compared with the bytes since it was pushed |
| `Decoder.BytesBack` | kafka/real_decoder.go:107-117 | reading undoes writing, and null and empty stay apart |
| `Decoder.VarintBytesBack` | kafka/real_decoder.go:119-129 | the same for varint lengths |
| `Decoder.ArrayLengthBack` | kafka/real_decoder.go:78-92 | a written array length is read back, or refused for exactly one of two reasons |
| `RecordBatches.TimeBack` | kafka/timestamp.go:12-40 | every time that can be encoded comes back to the millisecond, and the zero time as itself |
| `RecordBatches.DurationBack` | kafka/record.go:53-86 | a duration comes back rounded towards zero to the millisecond, without wrapping |
| `RecordBatches.HeadersBack` | kafka/record.go:20-36 | a list of headers comes back whatever follows it |
| `RecordBatches.RecordsTakeSpace` | kafka/record_batch.go:12-30 | there are never more records than bytes, so that an uncompressed count is never refused for lack of bytes |
| `RecordBatches.RecordsWritten` | kafka/record.go:50-70 | the calls of encode stand for the bytes of the records |
| `RecordBatches.RecordBack` | kafka/record.go:72-116 | a record comes back whatever follows it, and passes its length check |
| `RecordBatches.RecordsBack` | kafka/record_batch.go:12-30 | a list of records comes back, and exactly its bytes are consumed |
| `RecordBatches.DecodeHeaders` | kafka/record.go:103-113 | the loop over the headers reads what its function says, errors included |
| `RecordBatches.DecodeRecord` | kafka/record.go:72-116 | the decode method reads what its function says, errors included |
| `RecordBatches.DecodeRecords` | kafka/record_batch.go:21-30 | the loop over the records reads what its function says, errors included |
| `BatchCodec.AttributesBack` | kafka/record_batch.go:209-221 | codec and flags are recovered from the attributes |
| `BatchCodec.BatchWritten` | kafka/record_batch.go:58-99 | the calls of encode stand for the bytes of the batch: 61 of header, and the payload |
| `BatchCodec.FieldsBack` | kafka/record_batch.go:125-166 | the fixed fields come back, or one of two errors on the record count |
| `BatchCodec.PayloadBack` | kafka/record_batch.go:167-195 | the records come back from the decompressed payload, with their times to the millisecond |
| `BatchCodec.EncodeBatch` | kafka/record_batch.go:58-99 | a batch is encoded to its wire form, or refused for exactly the reasons of the code, whatever lengths earlier encodings have left in its records |
| `BatchCodec.DecodeBatch` | kafka/record_batch.go:101-195 | the decode method reads what its function says: header, checksum, records and partial batches |
| `BatchCodec.BatchBack` | kafka/record_batch.go:101-195 | what decoding an encoded batch gives, whatever follows it: the batch with its times to the millisecond, or one of two errors on the record count |
| `BatchCodec.BatchRoundTrip` | kafka/record_batch.go:58-195 | a batch comes back unchanged, consuming exactly its bytes, if and only if its times are whole milliseconds and its record count is within both limits; nil and empty stay apart |
| `BatchCodec.UncompressedRoundTrip` | kafka/record_batch.go:58-195 | without compression: if and only if its times are whole milliseconds and it has at most 131070 records |
| `BatchCodec.CompressedRefused` | kafka/real_decoder.go:85-87 | under a codec that gives back every text it is given, batches of two or more records that the encoder accepts and the decoder refuses |
| `MessageSets.EncodeSet` | kafka/message_set.go:57-65 | a message set is encoded to its wire form, or fails for size or, from version 1 on, for a time before 1970 |
| `MessageSets.SetWritten` | kafka/message_set.go:57-65 | the calls of encode stand for the bytes of the set, with nested lengths and checksums |
| `MessageSets.MessageBack` | kafka/message.go:60-168 | a message comes back whatever follows it, and passes its checksum |
| `MessageSets.DecodeMessage` | kafka/message.go:105-168 | the decode method reads what its function says: checksum, magic, attributes, timestamp, key and value |
| `MessageSets.DecodeBlock` | kafka/message_set.go:27-49 | the same for a block, whose offset is known even if the rest is missing |
| `MessageSets.DecodeSet` | kafka/message_set.go:67-105 | the loop reads what its function says, with the partial and overflow flags |
| `MessageSets.BlockBack` | kafka/message_set.go:17-49 | a whole block comes back whatever follows it |
| `MessageSets.KeptAgain` | kafka/message.go:105-168 | what the decoder returns, zero times included, can be encoded again and then comes back unchanged |
| `MessageSets.CutBlock` | kafka/length_field.go:28-38 | of a block cut behind its magic byte the decoder says that bytes are missing, and knows the offset |
| `MessageSets.Truncation` | kafka/message_set.go:67-105 | for sets below 2 GiB, any prefix of an encoded set decodes to exactly the blocks wholly within it; one flag is set if and only if the cut is not at the end of a block, and it is the overflow flag exactly for an offset of -1 once the magic byte is there |
| `Layouts.BatchLayout` | kafka/record_batch.go:58-99 | each field of an encoded batch stands at its byte position, in the width and order of the format, with the length and the checksum of what follows them |
| `Layouts.RecordLayout` | kafka/record.go:50-70 | the bytes of a record with short fields, one by one: length, attributes, time, offset, key, value and headers |
| `Layouts.HeaderBytesLayout` | kafka/record.go:20-25 | the bytes of a header with a short key and value: each behind its length |
| `Layouts.BlockLayout` | kafka/message_set.go:17-25 | the same for a legacy message: offset, size, checksum, magic, attributes, time, key and value |
| `Layouts.BytesLayout` | kafka/real_encoder.go:63-70 | a byte string behind four bytes of length, or -1 for null |
| `Layouts.MessageExample` | kafka/message.go:60-103 | the example: the bytes under the checksum of an empty message of version 0 |
| `Layouts.BigEndianAt` | kafka/real_encoder.go:18-36 | the bytes of an integer, the most significant one first |
| `Layouts.UvarintAt` | kafka/real_encoder.go:38-40 | the groups of seven bits of a varint, the least significant one first, each but the last with its high bit set |
| `Layouts.ZigZagSign` | kafka/real_encoder.go:38-40 | the lowest bit of a signed varint is its sign, and the rest its distance from 0 or -1 |
| `Layouts.LittleEndianAt` | mysql/packets.go:880-889 | the bytes of a MySQL integer, the least significant one first |
| `Layouts.HeaderLayout` | mysql/packets.go:128-141 | the header of a MySQL packet: three bytes of length, the least significant one first, and the sequence number |
| `Layouts.CommandLayout` | mysql/packets.go:872-890 | the bytes of a command for long data: command, statement, parameter, piece |
| `FetchBlocks.DecodeRecordsAt` | kafka/records.go:69-99 | the magic byte selects the format, and the records are read as its function says |
| `FetchBlocks.DecodeRecordsSet` | kafka/fetch_response.go:85-129 | the loop over the records of a partition keeps and stops as its function says |
| `FetchBlocks.WholeParsed` | kafka/records.go:69-99 | a whole batch is recognised by its magic byte and comes back whatever follows it |
| `FetchBlocks.BatchCut` | kafka/record_batch.go:164-174 | a cut batch gives an error, or its header and no records once the record count fits what is left |
| `FetchBlocks.FetchTruncation` | kafka/fetch_response.go:85-159 | for batches that the decoder accepts whole, any prefix of their encodings decodes to exactly the batches wholly within it that have records; the block is partial if and only if there is none of these and the cut is inside a batch, and then it has no records |
| `Consumer.PartitionConsumer.ParseMessages` | kafka/consumer.go:491-523 | the messages taken from legacy blocks, wrapped ones included, and the next offset |
| `Consumer.PartitionConsumer.ParseRecords` | kafka/consumer.go:525-552 | the messages taken from a batch, field by field, and the next offset |
| `Consumer.FromRecord` | kafka/consumer.go:536-546 | a message has the key, value and headers of its record, the offset of the batch plus that of the record, and the largest time of the batch if the log gives the times, otherwise its first time plus the difference |
| `Consumer.FromMessage` | kafka/consumer.go:496-513 | a legacy message has the key and value of its block, the time of the wrapper if the log gives the times, and before version 1 its own offset |
| `Consumer.WrappedOffsets` | kafka/consumer.go:494-505 | the last message of a wrapper has the offset of the wrapper, and the others keep their distances |
| `Consumer.ControlRead` | kafka/control_record.go:24-59 | a control record is read as an abort for 0, a commit for 1, and otherwise as unknown |
| `Consumer.PartitionConsumer.Enlarge` | kafka/consumer.go:584-605 | an empty, partial response doubles the fetch size up to the maximum, or skips an offset |
| `Consumer.FetchGrows` | kafka/consumer.go:600-604 | for a maximum below 2^30 the fetch size after n empty, partial responses is the size doubled n times, or the maximum |
| `Consumer.PartitionConsumer.ParseBlock` | kafka/consumer.go:607-688 | the loop over the records of a block, with its set of aborted producers, does what the walk says |
| `Consumer.PartitionConsumer.ParseResponse` | kafka/consumer.go:554-688 | errors of the response, and otherwise messages with strictly rising offsets from the starting offset on, with the consumer past all of them; the fetch size is reset by records and doubled exactly for a block cut short |
| `Consumer.SortedOrdered` | kafka/fetch_response.go:189-198 | the aborted transactions in the order of their first offsets, none lost or added |
| `Consumer.WalkRises` | kafka/consumer.go:622-688 | whatever a response holds, in whatever order, offsets handed on rise strictly and the consumer ends past them |
| `Consumer.OpenIsAborted` | kafka/consumer.go:632-640 | when a batch is reached, the set holds its producer if and only if each of its records lies in an aborted transaction |
| `Consumer.TracksBegin` | kafka/consumer.go:632-640 | popping the transactions that begin up to the end of a batch makes the set that of the producers with an aborted transaction open |
| `Consumer.BeginUpTo` | kafka/consumer.go:632-640 | the loop that pops them |
| `Consumer.TracksEnd` | kafka/consumer.go:662-672 | an abort marker closes what its producer has open, and nothing else does |
| `Consumer.StepExact` | kafka/consumer.go:622-688 | one batch adds exactly its visible records from the awaited offset on |
| `Consumer.WalkExact` | kafka/consumer.go:622-688 | so does the loop over all of them |
| `Consumer.ExactlyVisible` | kafka/consumer.go:615-688 | for well-formed batches the messages handed on are exactly the records that are not control records and lie in no aborted transaction, from the starting offset plus the offsets skipped, in strictly rising order; each has the key, value and headers of its record, the sum of the offsets, and the time of the batch or of the record |
| `Consumer.LostIffSkipped` | kafka/consumer.go:548-550 | nothing visible is lost if and only if no visible record is among the offsets skipped |
| `Consumer.SkipsNothing` | kafka/consumer.go:530-534 | nothing is skipped if and only if the response is empty or its first batch reaches the starting offset |
| `Consumer.SkipCanLose` | kafka/consumer.go:548-550 | waiting for offset 10 and given batches ending at 9 and 10, the consumer hands on nothing |
| `Delivery.CutDelivered` | kafka/fetch_response.go:85-129 | wherever a broker cuts the bytes of a response, if some batch with records is whole, the consumer hands on exactly the visible records of the whole batches, field by field, from the awaited offset plus the offsets skipped |
| `Delivery.CutAsksForMore` | kafka/consumer.go:584-605 | if no batch with records is whole, the consumer sees no records, and a block cut short exactly if the cut is inside a batch |
| `Delivery.Sent` | kafka/produce_set.go:119-150 | decoding the encoded batch of a partition gives, in order and numbered from zero, the keys, values, headers and times of its messages, the times to the millisecond |
| `Delivery.ProducedConsumed` | kafka/consumer.go:525-552 | a consumer that reads that batch at a base offset is handed exactly the messages that were added to the set, in order, at consecutive offsets |
| `OffsetManager.CommitTracking` | kafka/offset_manager.go:500-529 | in every state of every run a clean partition has exactly the offset and metadata that the broker acknowledged last, or that were fetched first, whatever is marked or reset during a flush; what marking and resetting do is `MarkStep` to `AckedIsLast` below |
| `OffsetManager.MarkStep` | kafka/offset_manager.go:500-509 | after a mark the offset is the larger of the two, with the metadata of the new mark and dirty exactly when it has grown |
| `OffsetManager.ResetStep` | kafka/offset_manager.go:511-520 | after a reset it is the smaller of the two, and on a tie the metadata are the new ones |
| `OffsetManager.OthersKeepMark` | kafka/offset_manager.go:236-349 | nothing but a mark or a reset of a partition changes its mark |
| `OffsetManager.FetchedFirst` | kafka/offset_manager.go:75-96 | a partition that is newly managed is clean, at the offset that was fetched, which counts as acknowledged |
| `OffsetManager.FurthestMark` | kafka/offset_manager.go:500-509 | over any part of a run without resets, the mark is the largest of the old one and all that were given, and it is one of them |
| `OffsetManager.RequestHasMark` | kafka/offset_manager.go:259-299 | a flush that reads a dirty partition has exactly its mark at that moment in its request, and a clean one is not in it |
| `OffsetManager.AckedIsLast` | kafka/offset_manager.go:301-349 | what counts as acknowledged is the mark in the last request that the broker has accepted |
| `OffsetManager.ReleaseIsSafe` | kafka/offset_manager.go:374-396 | a release that is not forced drops only closed partitions whose mark is acknowledged |
| `OffsetManager.OldAckStaysDirty` | kafka/offset_manager.go:522-529 | an acknowledgement of an older mark does not make a newer one clean |
| `OffsetManager.NextKeeps` | kafka/offset_manager.go:236-349 | every step keeps that clean partitions are acknowledged and partitions in flight are dirty |
| `OffsetManager.Manager.ConstructRequest` | kafka/offset_manager.go:259-299 | the request has exactly the marks of the dirty partitions |
| `OffsetManager.Manager.HandleResponse` | kafka/offset_manager.go:301-349 | exactly the partitions acknowledged at their current mark become clean |
| `OffsetManager.Manager.FlushToBroker` | kafka/offset_manager.go:236-257 | a flush makes clean exactly what its own request had acknowledged, and nothing if there is no answer |
| `OffsetManager.Manager.AsyncClosePoms` | kafka/offset_manager.go:362-371 | all partitions are marked as closed, with their marks kept |
| `OffsetManager.Manager.ReleasePoms` | kafka/offset_manager.go:374-396 | exactly the closed partitions that are clean, or all closed ones by force, are released |
| `OffsetManager.Manager.Close` | kafka/offset_manager.go:98-121 | closing gives up exactly the dirty partitions that none of the attempts has had acknowledged |
| `ClientMetadata.PartitionList` | kafka/client.go:625-642 | the sorted list of exactly the partition numbers, or of exactly those with a leader |
| `ClientMetadata.OneList` | kafka/client.go:640-641 | such a list is unique, so the cache has no freedom |
| `ClientMetadata.Client.SetPartitions` | kafka/client.go:877-888 | the partitions of a topic and both lists of them are stored together |
| `ClientMetadata.Client.StoreTopic` | kafka/client.go:853-888 | a topic replaces or removes its entry, the cache agrees with the metadata again, and whether to retry is reported |
| `ClientMetadata.Client.UpdateMetadata` | kafka/client.go:830-892 | after any response, full or partial, cached topics equal metadata topics and both lists of each topic are right; brokers, topics, retry and error are those of the response |
| `ClientMetadata.LastWord` | kafka/client.go:849-888 | the last entry for a topic in a response decides: without an error, or if only a leader is missing, its partitions are stored, and otherwise the topic is forgotten |
| `ClientMetadata.ByIdHas` | kafka/client.go:877-883 | partitions are found by their numbers, and of two with one number the later one |
| `ClientMetadata.ErrorReported` | kafka/client.go:859-875 | no error is reported exactly if every topic is stored |
| `ClientMetadata.LastErrorReported` | kafka/client.go:859-875 | otherwise the error of the last topic that is not stored is reported |
| `ClientMetadata.NotMentioned` | kafka/client.go:844-848 | topics that a partial response does not mention stay as they were |
| `ClientMetadata.LastAddress` | kafka/client.go:838-840 | the last address in a response for a broker is the one registered |
| `ClientMetadata.Undisturbed` | kafka/client.go:834-840 | a broker that a response does not mention, or only confirms, keeps its connection |
| `ClientMetadata.Client.RegisterBroker` | kafka/client.go:531-540 | a broker is registered under its number, unless it is already there at the same address |
| `ClientMetadata.Client.DeregisterBroker` | kafka/client.go:544-559 | the first seed goes to the dead seeds, any other broker is forgotten, no seed is lost, and for a known broker there is one candidate less |
| `ClientMetadata.Client.ResurrectDeadBrokers` | kafka/client.go:561-568 | the dead seeds are back behind the living ones |
| `ClientMetadata.Client.Any` | kafka/client.go:570-586 | a broker is found if and only if there is one, and it is the first seed or a registered one |
| `ClientMetadata.Client.UseAnswer` | kafka/client.go:784-805 | an answer is stored, and says whether to try again; a refusal that no other broker would mend changes nothing and ends the refresh |
| `ClientMetadata.Client.AskInTurn` | kafka/client.go:766-827 | a turn asks every broker once, each in time and failing, down to one that answers, to none or to too late; outcome and metadata are those of that end; with none left all seeds are alive again |
| `ClientMetadata.Client.TryRefreshMetadata` | kafka/client.go:744-827 | a refresh is a chain of such turns for every behaviour of brokers and clock; the metadata are the old ones with exactly the answers used in the turns, in order; the outcome is that of the last turn; no seed is lost or doubled, and the cache is right |
| `ClientMetadata.TurnsBounded` | kafka/client.go:752-766 | there is at most one turn more than there are attempts, and the last one does not go on |
| `Balance.BoundStep` | kafka/balance_strategy.go:46-51 | with exact reals every range has a size within one of the average |
| `Balance.BoundEnds` | kafka/balance_strategy.go:46-51 | the ranges begin with the first partition and end with the last |
| `Balance.BoundNearest` | kafka/balance_strategy.go:46-51 | the bounds are the nearest whole numbers to the even division |
| `Balance.RangeAt` | kafka/balance_strategy.go:43-54 | which member has a position under the range strategy |
| `Balance.RoundAt` | kafka/balance_strategy.go:61-69 | which member has a position under the round-robin strategy |
| `Balance.AddShare` | kafka/balance_strategy.go:14-22 | adding to the plan extends one share and no other |
| `Balance.RangeBalanced` | kafka/balance_strategy.go:43-54 | shares of the range strategy differ by at most one |
| `Balance.RoundBalanced` | kafka/balance_strategy.go:61-69 | shares of the round-robin strategy differ by at most one |
| `Balance.AssignRange` | kafka/balance_strategy.go:43-54 | the ranges cover the partitions without gap or overlap, and each goes to its member |
| `Balance.AssignRoundRobin` | kafka/balance_strategy.go:61-69 | each partition goes to the member whose turn it is |
| `Balance.MembersByTopic` | kafka/balance_strategy.go:83-89 | the members listed for a topic are exactly those subscribed to it |
| `Balance.SortKeeps` | kafka/balance_strategy.go:107-118 | ordering by hash neither loses nor adds nor repeats members |
| `Balance.SortSorted` | kafka/balance_strategy.go:107-118 | the members come in the order of their hashes |
| `Balance.MakePlan` | kafka/balance_strategy.go:82-105 | of every subscribed topic each position in its list of partitions is dealt out to the one member that the strategy gives it to, in the order of the members by hash; nothing else is assigned; if no member lists a topic twice, the shares of a topic differ by at most one |
| `Balance.OneOwner` | kafka/balance_strategy.go:82-105 | in such a plan each partition of a topic without repetitions is in exactly one member's share |
| `FingerprintScanner.Run` | lib/fingerprint.go:73-730 | the loop over the query, with its output array, returns or fails exactly as the functions of its body say; what they return is `FingerprintMeaning.Meaning` and the laws below |
| `FingerprintScanner.Scanner.DoSkip` | lib/fingerprint.go:100-394 | the part that skips literals, numbers, values and comments; what it writes is in `Crosses`, `NumeralCrossed`, `ListCrossed` and `CommentCrossed` |
| `FingerprintScanner.Scanner.DoChange` | lib/fingerprint.go:400-684 | the part that changes state by character |
| `FingerprintScanner.Scanner.DoCopy` | lib/fingerprint.go:690-715 | the part that copies a slice of the query |
| `FingerprintScanner.Scanner.Close` | lib/fingerprint.go:718-728 | trailing spaces and NUL characters go, and an overrun array gives the empty string |
| `FingerprintLiterals.StepSound` | lib/fingerprint.go:95-716 | no copy ends beyond the current position, and an escape is open only inside quotes or backticks |
| `FingerprintLiterals.StepAlike` | lib/fingerprint.go:95-716 | one round keeps two scans alike whose positions differ by a fixed shift |
| `FingerprintLiterals.StepDeep` | lib/fingerprint.go:95-716 | a list of values is never within the first three characters |
| `FingerprintLiterals.RunAlike` | lib/fingerprint.go:95-730 | alike scans of the same text end in the same fingerprint |
| `FingerprintLiterals.Crosses` | lib/fingerprint.go:100-152 | a scan goes over a literal and leaves it just behind its closing quote, with one question mark outside value lists and nothing inside |
| `FingerprintLiterals.LiteralReplaced` | lib/fingerprint.go:73-730 | putting a longer body into a literal leaves the fingerprint as it is, whenever the scan of the shorter query completes and the literal is not the very beginning of the query with one of the bodies empty |
| `FingerprintLiterals.LiteralInsensitive` | lib/fingerprint.go:73-730 | for any two bodies, where one scan completes, the fingerprints are equal if and only if the other scan completes too |
| `FingerprintLiterals.LiteralBoundary` | lib/fingerprint.go:475-477 | two bodies are interchangeable before every continuation of the query if and only if something precedes the literal, or both are empty, or neither is |
| `FingerprintLiterals.BeginsWithLiteral` | lib/fingerprint.go:475-477 | the example: after an empty literal at the beginning, a second literal, a sign and a comment, the sign is dropped; after any other literal it is kept |
| `FingerprintNumbers.NumeralCrossed` | lib/fingerprint.go:217-250 | a scan that has begun a numeral, outside versioned comments, passes over it and writes exactly one question mark for it and none of its characters, if there is room |
| `FingerprintNumbers.NumeralReplaced` | lib/fingerprint.go:73-730 | putting a longer numeral into a query leaves the fingerprint as it is, whenever the scan of the shorter query completes |
| `FingerprintNumbers.NumeralInsensitive` | lib/fingerprint.go:73-730 | for any two numerals of one length or that both end beyond the first two characters, where one scan completes, the fingerprints are equal if and only if the other scan completes too |
| `FingerprintNumbers.NumeralBoundary` | lib/fingerprint.go:475-477 | two numerals are interchangeable behind every text of a length and before every continuation if and only if they are of one length or both end beyond the first two characters |
| `FingerprintNumbers.TellsApart` | lib/fingerprint.go:475-477 | the examples: what the fingerprint is of a numeral at the beginning, or behind a sign, that a sign and a comment follow |
| `FingerprintNumbers.VersionKept` | lib/fingerprint.go:235-239 | the version number of a versioned comment is kept, and the next number is replaced again |
| `FingerprintNumbers.NumberInWordCrossed` | lib/fingerprint.go:194-216 | where numbers in words are replaced, digits are passed over and one question mark is written for them |
| `FingerprintLists.ListCrossed` | lib/fingerprint.go:251-320 | whatever stands between the brackets of a list, with literals and inner brackets, the scan passes over it and writes "(?+)", or "()" if nothing does, for the first list, and nothing for a further one |
| `FingerprintLists.ListInsensitive` | lib/fingerprint.go:73-730 | for any two contents of a list, of which both or neither are empty if it is a first list, where one scan completes, the fingerprints are equal if and only if the other scan completes too |
| `FingerprintLists.ListBoundary` | lib/fingerprint.go:301-312 | two contents are interchangeable before every continuation if and only if the list is not a first one, or both are empty, or neither is |
| `FingerprintComments.CommentCrossed` | lib/fingerprint.go:321-368 | in a comment of any of the three kinds nothing is written, and nothing changes but the state |
| `FingerprintComments.CommentInsensitive` | lib/fingerprint.go:73-730 | for any two bodies of a comment at the end of the query or before a character that begins a new stretch, where one scan completes, the fingerprints are equal if and only if the other scan completes too |
| `FingerprintLeaks.CommentBoundary` | lib/fingerprint.go:688-696 | comments are interchangeable wherever a character follows them if and only if it is no digit, quote, backtick, opening bracket, sign, point, slash or hash sign, nor white space, except behind a comment that two dashes begin |
| `FingerprintLeaks.Leaks` | lib/fingerprint.go:688-696 | the examples: for each of these characters a query whose fingerprint holds the comment |
| `FingerprintTokens.WordTaken` | lib/fingerprint.go:488-537 | a word is written in lower case with one space behind it; NULL becomes a question mark unless IS or NOT precedes it; ASC in an ORDER BY is left out, and its comma joins the word before |
| `FingerprintTokens.SingleTaken` | lib/fingerprint.go:406-449 | a number, with or without a sign, or a literal is one question mark and one space |
| `FingerprintTokens.PairTaken` | lib/fingerprint.go:569-576 | a word that ends in an operator and the value behind it are the word in lower case and a question mark |
| `FingerprintTokens.ListTaken` | lib/fingerprint.go:619-633 | a list with its word, with or without white space between them, is the word and "(?+)" or "()" |
| `FingerprintTokens.CommentTaken` | lib/fingerprint.go:577-603 | a comment between tokens writes nothing |
| `FingerprintTokens.TouchingTaken` | lib/fingerprint.go:577-586 | a word that a comment between slashes or from a hash sign on touches is lost with it |
| `FingerprintTokens.SpaceCollapses` | lib/fingerprint.go:369-398 | further white space changes nothing but the place from which the next token is copied |
| `FingerprintMeaning.Meaning` | lib/fingerprint.go:64-72 | for every query that is made of fitting tokens with white space between them: the scan is complete if and only if the reference reading of the tokens is no longer than the query, and then returns it |
| `FingerprintMeaning.MeaningOfRoomy` | lib/fingerprint.go:64-72 | unless a list has a single character just behind its word, the reading always fits |
| `FingerprintMeaning.ListOfOneIsLost` | lib/fingerprint.go:301-312 | the example: the fingerprint of `in(1)` does not fit and is lost |
| `FingerprintMeaning.TouchedIsLost` | lib/fingerprint.go:577-586 | the example: the fingerprint of `a/*b*/c` is `c` |
| `FingerprintMeaning.Deduplicated` | lib/fingerprint.go:64-72 | queries whose tokens differ only in letter case, white space, values, contents of lists and bodies of comments have the same fingerprint if and only if it fits both, and it fits the longer one |
| `FingerprintMeaning.UseDatabase` | lib/fingerprint.go:493-496 | a query whose first word is USE has the fingerprint "use ?", whatever follows |
| `FingerprintMeaning.CallProcedure` | lib/fingerprint.go:612-618 | a call has the fingerprint "call" and the name of the procedure as it is written, whatever follows |
| `FingerprintMeaning.StepCap` | lib/fingerprint.go:73-76 | no round writes beyond the output array |
| `FingerprintCase.LowerCase` | lib/fingerprint.go:64-72 | the result has an upper-case letter if and only if the scan reaches the bracket of a call whose procedure name has one, or the colon of an administrator command that has one |
| `FingerprintCase.CallKeepsCase` | lib/fingerprint.go:613-618 | the example: the fingerprint of `call A(` is `call A` |
| `FingerprintCase.LowerStaysLower` | lib/fingerprint.go:64-72 | a query in lower case has a fingerprint in lower case, without exception |
| `FingerprintCase.StepStops` | lib/fingerprint.go:613-649 | a round returns an upper-case letter exactly at such a bracket, and the whole query exactly at such a colon |
| `FingerprintCase.StepLowered` | lib/fingerprint.go:95-716 | one round adds no upper-case letter to the output |
| `MySqlPackets.SplitAndReassembled` | mysql/packets.go:27-178 | for every payload, exact multiples of the packet size included, the reader gets the payload back with the sequence numbers of both sides equal modulo 256; exactly the empty payload is refused |
| `MySqlPackets.ReceiveFails` | mysql/packets.go:31-66 | too few bytes, a sequence number ahead of the one that is due, one behind it, and an empty first packet are the four errors |
| `MySqlPackets.PiecesJoin` | mysql/packets.go:871-900 | the pieces of a long argument joined are the argument |
| `MySqlPackets.PiecesFit` | mysql/packets.go:856-874 | no piece is empty or larger than the room in a packet |
| `MySqlPackets.LongDataReceived` | mysql/packets.go:855-904 | a server that reads the commands and their identifiers appends the pieces, in order, to the argument of that statement and parameter |
| `MySqlPackets.ArgumentReceived` | mysql/packets.go:855-904 | the server gets the statement modulo 2^32, the parameter modulo 2^16 and the whole argument, and no other argument changes |
| `MySqlConnection.Buffer.Fill` | mysql/buffer.go:54-112 | whatever the network returns per read, no byte of the stream is lost or reordered; filling fails exactly if the stream is too short; only the front array is written to, and the background array stays |
| `MySqlConnection.Buffer.ReadNext` | mysql/buffer.go:116-129 | a part of the array that holds the next bytes of the stream, and the stream behind them; only the front array is written to |
| `MySqlConnection.Buffer.Flip` | mysql/buffer.go:49-51 | front and background change places, the stream stays, and the next fill spares the array in use |
| `MySqlConnection.ReadFlipRead` | mysql/rows.go:113-124 | bytes returned before a flip are still in their array after any number of further reads |
| `MySqlConnection.Buffer.Relocate` | mysql/buffer.go:57-78 | moving the unread bytes to the front of an array, even of the same one, keeps them |
| `MySqlConnection.Connection.ReadPacket` | mysql/packets.go:27-89 | for every chunking of the network the reader returns what the stream means, with its errors |
| `MySqlConnection.Connection.ReadFrame` | mysql/packets.go:31-76 | one frame of the stream with its length and sequence number, or the error of the code |
| `MySqlConnection.Connection.WritePacket` | mysql/packets.go:92-178 | with headers written in place, what is sent are exactly the packets of the payload; bytes outside the given part of the array are untouched; too large a packet sends nothing |
| `MySqlConnection.Connection.WriteFrame` | mysql/packets.go:99-147 | a header and its payload are sent, the four bytes before the payload are overwritten and nothing else |
| `MySqlConnection.Connection.WritePiece` | mysql/packets.go:872-900 | one command is sent, and the argument behind it is intact |
| `MySqlConnection.Connection.WriteCommandLongData` | mysql/packets.go:855-904 | what is sent are exactly the commands for the pieces of the argument, despite prefixes and headers written in place, and nothing for an empty one |
| `SqlLiterals.ReserveBuffer` | mysql/utils.go:519-528 | the slice is longer by what was asked for and begins with the old contents |
| `SqlLiterals.Escape` | mysql/utils.go:535-664 | the escaped value is appended, within the space reserved for it |
| `SqlLiterals.LexEscaped` | mysql/utils.go:530-664 | lexing an escaped value in front of any text gives the value in front of what lexing that text gives |
| `SqlLiterals.LiteralReadBack` | mysql/utils.go:530-664 | in both SQL modes a server reads the quoted, escaped value as the value and stops at its closing quote, if and only if no quote follows |
| `Interpolation.SegmentsJoin` | mysql/connection.go:198-206 | there is one segment more than placeholders, and the segments with placeholders put back are the query |
| `Interpolation.Count` | mysql/connection.go:183-185 | the number of placeholders |
| `Interpolation.AppendArg` | mysql/connection.go:212-296 | the rendering of an argument is appended, and the text before it kept; what the renderings are is `RenderedTexts` and `TimeReadBack` |
| `Interpolation.RenderedTexts` | mysql/connection.go:208-292 | the texts of nil, booleans, numbers, strings, byte strings and the zero time |
| `Interpolation.TimeReadBack` | mysql/connection.go:227-271 | the text of a time has its year, month, day, hour, minute and second at their places, and the microseconds exactly if there are any |
| `Interpolation.AppendTime` | mysql/connection.go:227-271 | the quoted text of a time is appended, digit by digit |
| `Interpolation.Interpolate` | mysql/connection.go:198-304 | the loop over the query, in the buffer of the connection, gives what its function says |
| `Interpolation.Woven` | mysql/connection.go:198-304 | the loop gives the segments with the rendered arguments between them, in order, exactly when all can be rendered and the text stays within the limit |
| `Interpolation.InterpolateParams` | mysql/connection.go:181-304 | a query is returned if and only if the counts agree, the buffer is free, every argument can be rendered and the text fits after every argument but a nil one; it is then the interleaving, from which each string argument is read back exactly as `ArgumentReadBack` says |
| `Interpolation.ArgumentReadBack` | mysql/connection.go:212-296 | a server that lexes the text just after the opening quote of a string argument gets the argument and then the rest of the text, if and only if what follows, a segment or a rendering, does not begin with a quote |

## Left out

- Idempotent production, sequence numbers and `retryBatch`: the producer theorems are about `Idempotent = false`.
- `Retry.Max = 0` and the `abandoned` channel: a path that never retries.
- Sockets, TLS, timers, backoff, circuit breakers, locks and metrics: steps of the model happen at any time, and code under one lock is one step.
- CRC arithmetic and the compression codecs: arbitrary functions.
- Compressed legacy message sets: unwrapping one is an arbitrary function, and the truncation theorem is about uncompressed blocks.
- The caches `Message.compressedCache` and `RecordBatch.compressedRecords`: the model encodes a message or a batch that has not been encoded before.
- Size estimates for legacy messages: their overhead constant leaves out the timestamp, so the bound is claimed for record batches only.
- Arrays of strings and integers, booleans and nullable strings in the codec, and the request and response structures: repetitions of what is modelled.
- Memory: a decoded count or length that is too large to allocate is not an outcome of the model.
- The rest of a `FetchResponseBlock` (error code, watermarks, aborted transactions) on the wire: fixed fields, easier than what is modelled.
- Broker connections that the client opens and closes, and metadata of brokers and controllers beyond what fail-over needs.
- Floating point in the range strategy: exact real numbers are used instead.
- The hash that orders group members: an arbitrary function, since the results do not depend on the order.
- Idempotence of the fingerprint.
- FingerprintMeaning.Meaning: queries with backticks, brackets outside lists, arithmetic signs, several lists in a row, or a value directly behind a comment or an ASC are not made of these tokens; for them there are the laws about one place in any query.
- FingerprintComments.CommentInsensitive: a comment that a hash sign opens at the very beginning of the query is left out.
- Queries with characters outside ASCII, the debug output, and the query identifier computed from a fingerprint.
- FingerprintLiterals.LiteralInsensitive: a scan that fills its output array, which is as long as the query, and an administrator command, which is returned as it is, are not complete; of two such scans it says nothing.
- MySqlConnection.Connection.ReadPacket: returns the payload as a value, where the source returns a part of the array for a payload of one packet.
- OffsetManager.Manager.Close: users do not mark or reset while it runs; with users at any time, the protocol has `CommitTracking` and `ReleaseIsSafe`.
- MySqlConnection.Connection.WriteCommandLongData: for an argument that is not empty, assumes an allowed packet of more than eight bytes, without which the loop in the source makes no progress.
- MySqlConnection.Connection.WritePacket: the check for a stale connection and the kinds of connection error are one failure.
- Interpolation.Woven: the text of numbers comes from a formatting library and is a parameter, and so are the calendar fields of a time in its zone.
- `lib/explain.go`, `lib/soar.go`, the HTTP programs, redis and the group sessions: plumbing around the parts above.
