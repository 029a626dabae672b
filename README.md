# RTMP chunk saver and SOAP summary post-processing, in Dafny

This project models two sequential cores of a clinical-conversation backend.

**The RTMP saver** (`sync_api/rtmp_saver.py`) has three parts:
- `retry_with_backoff` is a bounded retry with a constant 0.1 s pause.
- The generator `yield_chunks_from_rtmp_stream` opens the live stream and demultiplexes its audio. After a reconnection it drops packets whose presentation timestamp (PTS) is not past the last one it saw. It yields the normalized PCM blocks.
- `save_rtmp_loop` cuts those blocks into chunks and posts each chunk for transcription. It appends the first segment's text to a running transcript, sends and stores that transcript, and records the session's stage in the bucket.

**The SOAP executor** (`executors/worker/soap_executor.py`) covers:
- the schema filter `filter_summary_properties`;
- the note parser `string_to_dict`;
- the segment selection `get_interested_text`;
- the line assembly and filtering of the four `get_*_summary` methods.

Modules:
- `Wrappers`: `Option` and `Result`.
- `Ascii`: the Python `str` operations the code uses, on ASCII text: `lower`, `capitalize`, `strip`, `split`, `join`, `replace(pat, "")`, `in`.
- `RetryPolicy`: `retry_with_backoff` over a state-passing operation.
- `StreamConnector`: the generator.
  - The n-th `av.open` call succeeds when `opens(n)` holds.
  - The demultiplexer's output is a sequence of packets and faults.
  - Decode, resample and encode together are one function from a packet to byte blocks.
- `RtmpSaver`: the chunk loop, run over the generator's output.
  - The clock, the transcription answers and the websocket outcomes are inputs.
  - The bucket is a map from object key to JSON object.
- `SoapExecutor`: the text post-processing.
  - The language model and sentence tokenizer are one function parameter.
  - Each summary returns the object it uploads.

Every loop of the source is a `method` with a `while` or `for` loop. Each method is proved equal to a specification function, and the lemmas state what the source promises about that function.

## Model

| member | source | states |
|---|---|---|
| RetryPolicy.RetryWithBackoff | sync_api/rtmp_saver.py:154-162 | The attempt loop ends as `Retry` says. It pauses once after each failed attempt except the last, always for the same 100 ms. |
| RetryPolicy.RetryCharacterized | sync_api/rtmp_saver.py:154-162 | With `max_attempts <= 0` nothing is called and the result is None. Otherwise there are 1 to `max_attempts` calls, and every call but the last failed. A success returns the last call's value. An exception escapes only after exactly `max_attempts` failures, and it is the last one. |
| RetryPolicy.RetryFromCharacterized | sync_api/rtmp_saver.py:155-162 | The same, counted from an attempt number below `max_attempts`. |
| StreamConnector.OpenAfter | sync_api/rtmp_saver.py:174-176 | After `i` opens from count `u`, the count is `u + i`, and the next open succeeds exactly when `opens(u + i)`. |
| StreamConnector.OpenRetry | sync_api/rtmp_saver.py:172-178 | A retried `av.open` succeeds exactly when one of the next `n` opens succeeds, and it is then the first such open. All earlier opens failed. If it fails, exactly `n` opens were used. |
| StreamConnector.NestedReconnectIsNineOpens | sync_api/rtmp_saver.py:224 | Retrying `reconnect_to_stream`, which itself retries `av.open`, uses between 1 and 9 opens. It succeeds exactly when one of the next nine succeeds, at the first success. If it fails, all nine opens were used. |
| StreamConnector.Admit | sync_api/rtmp_saver.py:206-211 | Right after a reconnection with a recorded position, a packet at or before that position is dropped and changes nothing. Any other packet is accepted: the position becomes its PTS and the reconnected flag is cleared. |
| StreamConnector.Reconnect | sync_api/rtmp_saver.py:218-235 | A fault leads to the nested reconnect. On success the reader keeps its position and is marked reconnected; on failure the generator ends. |
| StreamConnector.EmitPacket | sync_api/rtmp_saver.py:213-216 | An accepted packet appends its normalized blocks to what has been yielded. |
| StreamConnector.DemuxLoop | sync_api/rtmp_saver.py:203-275 | The `while True` demultiplexing loop yields the normalized blocks of exactly the packets the filter admits over the whole event sequence. |
| StreamConnector.YieldChunksFromRtmpStream | sync_api/rtmp_saver.py:165-286 | The generator yields the blocks of the admitted packets. It raises to its consumer only when the first three opens all fail. A missing audio track ends it with nothing. |
| StreamConnector.PumpTracksPosition | sync_api/rtmp_saver.py:208-211 | After any run of events, the recorded position is the PTS of the last admitted packet, or unchanged when none was admitted. |
| StreamConnector.NoStalePacketAfterReconnect | sync_api/rtmp_saver.py:206-210 | After a reconnection with a recorded position, the first packet let through is strictly past that position. |
| StreamConnector.PumpDisconnected | sync_api/rtmp_saver.py:218-235 | A run ends disconnected only after a fault whose reconnection failed all nine opens from the final reader. With no fault, or when every open succeeds, the stream stays connected. |
| StreamConnector.PumpIncreasing | sync_api/rtmp_saver.py:205-211 | If packets arrive in increasing PTS order between faults, the admitted PTS values are strictly increasing and lie past the starting position. |
| StreamConnector.NoDuplicateAudio | sync_api/rtmp_saver.py:180-216 | Under the same condition, a whole session never admits two packets with the same or a decreasing PTS, however many reconnections happen. |
| RtmpSaver.ChunkNameForm | sync_api/rtmp_saver.py:344-345 | The uploaded name of chunk `n` is `{stream_key}_chunk{n}.wav` when the key has no `/`. |
| RtmpSaver.ChunkNamesDistinct | sync_api/rtmp_saver.py:344-352 | Different chunk numbers give different chunk names. |
| RtmpSaver.KeysCollide | sync_api/rtmp_saver.py:330-366 | The stage object and the transcript object share a key exactly when the stream key is "transcript". |
| RtmpSaver.MarkStarted | sync_api/rtmp_saver.py:326-334 | The stage object is written with stage "rtmp_saving_started" and `last_processed_end_time` 0 only when it does not exist yet. Every existing object is kept as it was. |
| RtmpSaver.MarkDone | sync_api/rtmp_saver.py:398-403 | Only the stage object can change, and only when it exists and is non-empty. Its "stage" field becomes "rtmp_saving_done" and all its other fields are kept. |
| RtmpSaver.AccumulateIsJoin | sync_api/rtmp_saver.py:353-360 | The running transcript is the non-empty chunk texts joined by newlines, in chunk order. An empty text adds no blank line and no separator. |
| RtmpSaver.FramesConcat | sync_api/rtmp_saver.py:337 | The frame count of consecutive blocks adds up. |
| RtmpSaver.Fill | sync_api/rtmp_saver.py:325-341 | The inner `for` loop ends the chunk at a block index between the current position and the end of the stream. |
| RtmpSaver.FillStopsWhenFull | sync_api/rtmp_saver.py:325-341 | A chunk stops at the first block after which both hold: the elapsed time has reached the chunk duration, and the frames written have reached `16000 * chunk_duration`. Otherwise it runs to the end of the stream. |
| RtmpSaver.FillChunk | sync_api/rtmp_saver.py:315-341 | The inner loop takes exactly the blocks `Fill` says. It reads the clock once per block. It writes the started marker on the first block of the session only. |
| RtmpSaver.AfterFill | sync_api/rtmp_saver.py:343-393 | Every chunk is posted under the next chunk name. The loop goes on only when the chunk lasted the chunk duration; the chunk counter then grows by one and one more transcript has been sent. |
| RtmpSaver.ShipChunk | sync_api/rtmp_saver.py:343-393 | Posting, the transcript update, the send, the store and the short-chunk test compute `AfterFill`. |
| RtmpSaver.ChunkStep | sync_api/rtmp_saver.py:314-393 | When an iteration of the outer loop continues, it has consumed at least one block. |
| RtmpSaver.Iteration | sync_api/rtmp_saver.py:314-393 | One pass of the outer loop computes `ChunkStep`. |
| RtmpSaver.PostChunk | sync_api/rtmp_saver.py:343-352 | Posting the next chunk keeps the names numbered 1, 2, 3, ... and the posted blocks equal to a prefix of the stream. |
| RtmpSaver.FailureEnds | sync_api/rtmp_saver.py:348-389 | When the post raises, the session ends with one more chunk posted than transcripts sent, and the stage update is skipped. When the send fails, it ends the same way but with the stage marked done. |
| RtmpSaver.DrainEnds | sync_api/rtmp_saver.py:391-393 | When the stream is used up or a chunk is short, every block has been posted and every chunk's transcript sent. |
| RtmpSaver.StepFaithful | sync_api/rtmp_saver.py:314-393 | Every iteration keeps the loop invariant, or ends the session in one of the five ways `Ended` describes. The invariant covers the numbering, the prefix of blocks posted, one transcript per chunk, the transcript built from the texts so far, and the bucket holding marker and latest transcript. |
| RtmpSaver.SavingEnded | sync_api/rtmp_saver.py:314-403 | From any state that meets the invariant, the rest of the loop ends as `Ended` describes. |
| RtmpSaver.SessionEnded | sync_api/rtmp_saver.py:289-408 | A whole session aborts untouched exactly when the generator raised. Otherwise it ends as `Ended` describes. Transcript `i` is always the non-empty texts of chunks 1 to `i + 1` joined by newlines. |
| RtmpSaver.FinishStage | sync_api/rtmp_saver.py:398-403 | The final stage update is `MarkDone`. |
| RtmpSaver.ChunkLoop | sync_api/rtmp_saver.py:308-403 | The outer `while True` loop and the final stage update compute `SaveSession`. |
| RtmpSaver.SaveRtmpLoop | sync_api/rtmp_saver.py:289-408 | A session fed by the generator ends as `SaveSession` says for the generator's blocks. |
| SoapExecutor.KeepKey | executors/worker/soap_executor.py:68 | A property is kept exactly when its key equals the summary type. |
| SoapExecutor.FilterSummaryProperties | executors/worker/soap_executor.py:37-73 | The result is one schema with its name, description and "object" type unchanged. Its properties are exactly the original ones whose key equals the summary type. |
| SoapExecutor.FilterSummaryPropertiesCases | executors/worker/soap_executor.py:37-73 | A known summary type keeps exactly its own property; any other string keeps none. |
| SoapExecutor.ProcessSentence | executors/worker/soap_executor.py:81-86 | A sentence is stripped, then every "- " occurrence found scanning from the left is removed once, so a "- " formed by the removal stays and the result may begin with a space. It always ends with a full stop, and one is added only when missing. |
| SoapExecutor.BlankPieceIsFullStop | executors/worker/soap_executor.py:81-98 | A whitespace-only piece passes the emptiness test and becomes a lone ".". |
| SoapExecutor.ProcessSentenceFixpoint | executors/worker/soap_executor.py:81-86 | A stripped sentence without "- " that ends in a full stop comes through unchanged. |
| SoapExecutor.SectionKey | executors/worker/soap_executor.py:103-110 | A title has a key exactly when it is one of the four section names, and that key is one of the four summary keys. |
| SoapExecutor.Pieces | executors/worker/soap_executor.py:96-98 | A line yields at most one sentence per " -" piece, and every sentence ends with a full stop. |
| SoapExecutor.Sentences | executors/worker/soap_executor.py:95-98 | Every sentence of a section body ends with a full stop. |
| SoapExecutor.AssignLastWins | executors/worker/soap_executor.py:89-110 | Filing entries in order gives a key exactly when some entry names it, holding the value of the last such entry. |
| SoapExecutor.ParseLastWins | executors/worker/soap_executor.py:75-112 | The result has only the four summary keys. A key is present exactly when some section has the matching title, and it holds the content of the last such section. |
| SoapExecutor.TitleLineIgnored | executors/worker/soap_executor.py:90-100 | A section's title is its first line lower-cased with colons stripped. Its content comes only from the lines after it. |
| SoapExecutor.StringToDict | executors/worker/soap_executor.py:75-112 | The section loop builds the dictionary `Parse` specifies for the "\n\n"-separated sections. |
| SoapExecutor.ParseSection | executors/worker/soap_executor.py:90-100 | The loop body finds a section's title and its space-joined content. |
| SoapExecutor.MapTitle | executors/worker/soap_executor.py:102-110 | The `if`/`elif` chain files the content under the title's key, and changes nothing for an unknown title. |
| SoapExecutor.SectionSentences | executors/worker/soap_executor.py:94-98 | The loop over the body lines collects the sentences of every line after the title, in order. |
| SoapExecutor.LineSentences | executors/worker/soap_executor.py:96-98 | The loop over the " -" pieces of a line processes exactly the non-empty ones, in order. |
| SoapExecutor.InterestedTextCharacterized | executors/worker/soap_executor.py:251-269 | A segment is kept exactly when the segment, lower-cased, contains either of these for some entity value: the value's lower-cased text, or one of its lower-cased words longer than three characters. Kept segments stay in order. The call fails only when there are segments but no "entities". |
| SoapExecutor.GetInterestedText | executors/worker/soap_executor.py:251-269 | The loop over the segments computes `InterestedText`. |
| SoapExecutor.SegmentMatters | executors/worker/soap_executor.py:256-266 | The loop over entity types, which stops once a segment is important, decides exactly whether some value of some type is mentioned. |
| SoapExecutor.AnyMentioned | executors/worker/soap_executor.py:260-266 | The loop over one type's values, which stops at the first match, decides exactly whether some value is mentioned. |
| SoapExecutor.FilterLinesCharacterized | executors/worker/soap_executor.py:302-306 | A line is kept exactly when its lower-cased form contains no listed entry. The filter keeps the lines in order. |
| SoapExecutor.UnknownKeptAsWritten | executors/worker/soap_executor.py:19-29 | With the list as written, a line reading "unknown" is not removed. |
| SoapExecutor.UnknownDroppedWhenCorrected | executors/worker/soap_executor.py:19-29 | With "un known" and "unknown" as separate entries, the same line is removed. |
| SoapExecutor.PrefixMembers | executors/worker/soap_executor.py:277-289 | A prefix line is emitted exactly for each listed key present in the predictions, as the capitalized key, ": " and its text. There is at most one line per key. |
| SoapExecutor.PrefixAppend | executors/worker/soap_executor.py:277-289 | Whichever keys are missing, the lines of a key list split in two are the lines of its first part followed by those of its second: the lines of the present keys, in key order. |
| SoapExecutor.PrefixInKeyOrder | executors/worker/soap_executor.py:277-289 | When every listed key is present, line `i` belongs to key `i`: the lines follow the fixed key order. |
| SoapExecutor.PrefixLines | executors/worker/soap_executor.py:277-289 | The loop over the key list builds `Prefix`. |
| SoapExecutor.NullFieldFlagged | executors/worker/soap_executor.py:289 | A field whose text is null prints as "...: None", so any word list holding "none", as written or corrected, flags it. |
| SoapExecutor.LinesCharacterized | executors/worker/soap_executor.py:273-441 | Below the gate (no interesting segment, or fewer than 20 words), the uploaded lines are the prefix lines, unfiltered; there are none for the assessment and the plan, and the language model is not consulted. At or above the gate, a line is uploaded exactly when it is a prefix line or a generated sentence for `"\n".join(interest_texts)` and it carries no word of the given list. A null field's line is then never uploaded when the list holds "none". |
| SoapExecutor.Summarize | executors/worker/soap_executor.py:273-441 | Each of the four summary methods uploads, under `{conversation_id}/` plus its own file name, `Lines` filtered with the word list as written. |
| SoapExecutor.UnknownFieldUploaded | executors/worker/soap_executor.py:19-29 | At or above the gate, a subjective summary whose "bmi" field reads "Unknown" uploads "Bmi: Unknown" with the list as written, and drops it with the corrected list. |
| SoapExecutor.CorrectedLinesNeverUnknown | executors/worker/soap_executor.py:19-29 | With the corrected list, at or above the gate, no uploaded line contains "unknown" or "un known" in any case. |

## Left out

- I/O that carries no state the model needs is left out: logging, `push_logs` telemetry, `print`, the `time.sleep` pauses (2 s before a reconnect, 10 s in the outer handler) and the WAV header writing. `RetryWithBackoff` returns its pauses instead of sleeping.
- Failures of the bucket calls (`check_file_exists`, `upload_to_s3`, `get_json_file`) are not modelled. The bucket is a map that always answers.
  - A missing stage object makes `get_json_file` raise into the outer handler. That leaves the bucket exactly as `MarkDone` does (unchanged).
- The media library (`av.open` on the container, `demux`, decode, resample, encode) is abstract: an open is `opens(n)`, and the normalization of a packet is the parameter `normalize`.
  - The exception type is not modelled. All three handlers at lines 218-275 do the same thing, so a fault is one event.
  - The `Input/output error` test at line 238 decides only whether the handler runs.
- The generator is modelled eagerly. `YieldChunksFromRtmpStream` computes every block before the chunk loop runs.
  - The results are the same, because the generator's output does not depend on the consumer.
  - The model does count reconnection opens after the point where the consumer stops pulling. The source never makes those calls.
- `StreamConnector.DemuxLoop`, `StreamConnector.YieldChunksFromRtmpStream`: the events are a finite list, and a run whose list ends without a final fault ends the generator normally. It stands for a stream that the source's `while True` loop would keep demultiplexing, since the source ends only through a failed reconnection or the outer handler.
- `RtmpSaver.SaveRtmpLoop`, `RtmpSaver.ChunkLoop`, `RtmpSaver.SessionEnded`: require a positive chunk duration and a clock that never goes back. With a zero duration, or a clock that jumps back, the source can loop forever on an exhausted iterator. The model does not represent that non-termination.
- The transcription request is abstract. `transcribe(n)` is the answer for chunk `n`.
  - `Unreachable` covers any exception from `requests.post(...).json()["prediction"][0]`.
  - A `None` or empty first-segment text both count as no text.
- The websocket is abstract. `sendOk(n)` says whether the send after chunk `n` succeeds.
  - The `except Timeout` branch is dead, because the `receive` under the timeout is commented out. It is not modelled.
- Floating-point time is modelled as `real`. The frame counts are exact integers.
- `get_clinical_summaries_from_openai` (OpenAI with its model-fallback loop) and `nltk.sent_tokenize` are one parameter, `generate(prompt, summary_type)`.
  - It returns the tokenized sentences, or `None` when the reply has no such summary or tokenizing fails. In both of those cases the source adds nothing.
- `get_merge_ai_preds` is not part of this model. It reads from the bucket and builds default dictionaries.
- The field values of the predictions are modelled as an optional string text.
  - A `KeyError` on a missing "text" inside a field, a segment or an entity value is not modelled.
  - Neither is formatting a non-string text.
- `message.get("care_req_id")` is the string parameter `conversationId`.
- `Ascii`: `lower`, `capitalize`, `strip` and `split()` act on ASCII only. Python's Unicode case mapping and Unicode whitespace are not modelled.
- Behaviour of the code that the model keeps:
  - A failing transcription request is not caught per chunk: it ends the session through the outer handler, with no stage update.
  - A decode failure inside the packet loop leads to a reconnection, not to the end of the session.
  - A missing audio track ends the generator quietly instead of failing the session. The chunk loop still posts an empty chunk 1, then sends and stores the transcript. The session then ends through the outer handler on the unbound `current_time`, before the stage update.

## Findings

| source | as written | input that shows it | evidently intended | confidence | as-written member | corrected member |
|---|---|---|---|---|---|---|
| executors/worker/soap_executor.py:21-22 | A missing comma joins "un known" and "unknown" into the single entry "un knownunknown", so the filter removes neither word on its own. | the line "unknown"; a "bmi" field reading "Unknown" above the gate | "un known" and "unknown" are separate entries, and a line containing either is removed. | high, not executed | SoapExecutor.UnknownFieldUploaded | SoapExecutor.CorrectedLinesNeverUnknown |

`SoapExecutor.Summarize` models the four methods as written: it filters with `RemoveLinesWithWordsAsWritten`. `SoapExecutor.Lines` takes the word list as a parameter, so the corrected instance is `Lines` with `RemoveLinesWithWords`. `SoapExecutor.UnknownKeptAsWritten` and `SoapExecutor.UnknownDroppedWhenCorrected` show the same difference on the single line "unknown".
