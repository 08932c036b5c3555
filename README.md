# FLAC to MP3 bot core in Dafny

This project models the logic of a Telegram bot that converts FLAC files to MP3 at a
constant 320 kbit/s, and proves properties of that model. The bot's logic has five parts:

- **FLAC detection and the request handlers.** A document or audio attachment counts as FLAC
  when its lower-cased name ends with ".flac" or its lower-cased MIME type is "audio/flac" or
  "audio/x-flac". A missing name falls back to "audio.flac" and a missing size to 0.
- **The per-request orchestration, `_process_flac`.** It runs these steps in order:
  - check the size against the 20 MiB transport ceiling, then against the configured ceiling;
  - stage a temporary ".flac" path and download the file to it;
  - convert with ffmpeg;
  - send the MP3 back under the original name with its extension replaced by ".mp3";
  - remove the temporary files;
  - add a conversion log row and count the conversion for the user.
- **The transcoder, `convert_flac_to_mp3`.** It names the output
  `<input stem>_<8 hex digits>.mp3` in the working directory and builds a fixed ffmpeg argument
  vector. It reports a `ConversionResult`: on failure, with the last 500 characters of ffmpeg's
  error output.
- **The temporary file helpers.** They build fresh names `<uuid hex>.<extension>` and remove any
  number of paths, skipping those that are absent.
- **The throttling middleware.** It admits a user's message only when that user's key is absent
  from the expiring-key store, and then sets the key for `int(throttle_rate)` seconds.

**/start and /stats** are the two commands over the users table. /start creates the sender's
row if it is missing. /stats reads the counter, with 0 for a user who has no row.

The model is split into these modules:

| module | covers |
|---|---|
| `Strings` | Python string operations the code relies on |
| `Paths` | `os.path.join`, `basename` and `splitext`, and `pathlib` `stem` |
| `Config` | the shipped defaults |
| `TempFile` | `temp_path`, plus a `FileSystem` class whose `Cleanup` loop removes paths one by one |
| `AudioConverter` | the output path, the argument vector, the result, the table of started processes, and the conversion step |
| `Throttling` | a class holding the store as a map from key to expiry instant, and the store's clock, both in milliseconds |
| `Start` | a `Database` class for the two tables, with /start and /stats |
| `Converter` | the detection predicates, the handlers' defaults, the size checks, and the orchestration |

Several inputs come from outside the bot and are parameters of the model:

- the two random `uuid4().hex` strings;
- the download's result;
- whether ffmpeg could be started and, if so, how it exited (`Run`);
- the two monotonic clock readings;
- the store's clock, and the delay between the throttle's two store commands;
- whether sending the MP3 succeeded.

The file system records every path handed to `cleanup`, in order, and a process table records
the argument vector of every ffmpeg process started. `ProcessFlac` is proved against reference
functions of these inputs:

- `ExpectedOutcome` gives the terminal state;
- `StagedPaths` gives the temporary paths the request names;
- `LogOf` gives the record it adds.

Lemmas state what those functions mean:

- each outcome is reached exactly on its own path through the stages;
- the staged paths are distinct, so each is cleaned exactly once;
- their names depend only on the random hex strings.

Four behaviours of the code are worth noting; the model follows the code in each:

- **Recording after a failed send.** A failed send is caught without returning. The log row and
  the counter increment therefore also happen when delivery failed, not only on delivery.
- **Order of the size checks.** The size checks are ordered, and the transport check comes first.
  With the shipped configured ceiling of 50 MB the configured check can never reject
  (`Converter.ConfiguredLimitUnreachable`, `Converter.DefaultsOnlyTransportRejects`).
- **ffmpeg that cannot be started.** When ffmpeg cannot be started at all, the exception leaves
  `_process_flac`. The staged input is then not cleaned (outcome `ConversionRaised`).
- **Store failures.** The throttle has no fail-closed policy for store errors, and its time to
  live is `int(rate)` seconds, not a fractional interval. With a rate below 1 the store refuses
  the non-positive expiry and the message is not handled (verdict `Raised`). The store keeps
  expiry instants in milliseconds: a key still exists at its expiry instant, and `TTL` rounds
  the milliseconds left to whole seconds, so a rejection can report a wait of 0 seconds.
  `EXISTS` and `TTL` are separate round trips: a key that expires between them makes `TTL`
  answer -2, and the user is told to wait -2 seconds (`Throttling.ExpiredBetweenCommands`).

## Model

| member | source | states |
|---|---|---|
| Strings.Lower | bot/handlers/converter.py:21-22 | lower-casing keeps the length and maps each character through the ASCII case mapping |
| Strings.EndsWith | bot/handlers/converter.py:23 | `s.endswith(suffix)`: the last `len(suffix)` characters are the suffix; EndsWithIff states its meaning |
| Strings.EndsWithIff | bot/handlers/converter.py:23 | `endswith(suffix)` holds exactly when the string is some prefix followed by the suffix |
| Strings.Prefix | bot/services/audio_converter.py:31 | `hex[:8]` has length min(8, len) and is a prefix |
| Strings.LastN | bot/services/audio_converter.py:65 | `s[-500:]` has length min(500, len) and the string is what precedes it followed by it |
| Strings.LStrip | bot/utils/temp_file.py:8 | `lstrip('.')` drops exactly the leading run of dots: the result is a suffix, what was dropped is all dots, and the result does not start with a dot |
| Strings.RFind | bot/services/audio_converter.py:29 | `rfind` gives -1 or an index holding the character, with no later occurrence |
| Strings.RFindAppend | bot/services/audio_converter.py:29 | appending text without the character does not move its last occurrence |
| Strings.NatToDecimal | bot/middlewares/throttling.py:22 | the decimal text of a natural number is a non-empty run of digits, one digit exactly below 10 |
| Strings.IntToDecimal | bot/middlewares/throttling.py:22 | `f"{user_id}"` is non-empty and starts with '-' exactly for a negative id; IntToDecimalInjective states that it tells ids apart |
| Strings.NatToDecimalInjective | bot/middlewares/throttling.py:22 | different natural numbers have different decimal texts |
| Strings.IntToDecimalInjective | bot/middlewares/throttling.py:22 | different integers, negative ones included, have different decimal texts |
| Throttling.ThrottleKey | bot/middlewares/throttling.py:22 | the key is "throttle:" followed by the user id in decimal; ThrottleKeyInjective states that it tells users apart |
| Paths.Join | bot/utils/temp_file.py:9 | `os.path.join(a, b)` ends with `b` |
| Paths.BaseName | bot/services/audio_converter.py:29 | the base name is a tail of the path and holds no '/'; BaseNameIsTail adds that it starts right after the last '/' |
| Paths.BaseNameIsTail | bot/services/audio_converter.py:29 | the character before the base name is a '/', and a base name as long as the path means the path holds no '/' |
| Paths.BaseNameOfJoin | bot/utils/temp_file.py:9 | joining a directory with a '/'-free name gives a path whose base name is that name |
| Paths.Stem | bot/services/audio_converter.py:29 | a stem never holds a '/' |
| Paths.StemOfName | bot/services/audio_converter.py:29 | the stem of "base.ext", with a non-empty base and dot-free non-empty ext, is base |
| Paths.SplitExtRoot | bot/handlers/converter.py:104 | `splitext(p)[0]` is a prefix of `p`; what it drops starts at a '.' and holds no other '.' or '/' |
| Paths.SplitExtRootOfExtension | bot/handlers/converter.py:104 | "base.ext", with a base that is not only dots, loses exactly ".ext" |
| TempFile.TempName | bot/utils/temp_file.py:8 | `<hex>.<extension without leading dots>`; its meaning is stated by TempNameHasNoSlash and TempPathBaseName |
| TempFile.TempPath | bot/utils/temp_file.py:7-9 | the name joined to the working directory; its meaning is stated by TempPathBaseName, TempPathStem and TempPathIgnoresLeadingDots |
| TempFile.TempPathIgnoresLeadingDots | bot/utils/temp_file.py:7-9 | any number of leading dots on the extension gives the same path, so "flac" and ".flac" agree |
| TempFile.TempNameHasNoSlash | bot/utils/temp_file.py:8 | a temporary file name built from uuid hex and a '/'-free extension holds no '/' |
| TempFile.TempPathBaseName | bot/utils/temp_file.py:7-9 | the file part of a temporary path is `<hex>.<extension without leading dots>`, directly inside the working directory, and depends on nothing else |
| TempFile.TempPathStem | bot/utils/temp_file.py:7-9 | the stem of a staged ".flac" path is its uuid hex |
| TempFile.AfterRemove | bot/utils/temp_file.py:14-17 | one `os.remove(p)` with its `OSError` swallowed: a present path is removed, an absent one is skipped |
| TempFile.AfterCleanup | bot/utils/temp_file.py:12-17 | removal path by path, skipping absent ones; AfterCleanupIsDifference gives its closed form |
| TempFile.AfterCleanupIsDifference | bot/utils/temp_file.py:12-17 | removing the paths one by one, skipping absent ones, leaves the file set minus those paths |
| TempFile.CleanupOfWrittenPair | bot/handlers/converter.py:97 | cleaning two paths just written, the second one possibly not, restores the earlier file set without them |
| TempFile.CleanupRemovesAll | bot/utils/temp_file.py:12-15 | after cleanup none of the given paths exists |
| TempFile.CleanupLeavesOthers | bot/utils/temp_file.py:12-17 | a path not given to cleanup keeps its presence and its contents |
| TempFile.CleanupSkipsAbsent | bot/utils/temp_file.py:16-17 | cleaning only absent paths changes nothing |
| TempFile.CleanupIdempotent | bot/utils/temp_file.py:12-17 | cleaning twice equals cleaning once |
| TempFile.FileSystem.Write | bot/handlers/converter.py:75 | a collaborator writing a file sets that one path's size and nothing else, and removes nothing |
| TempFile.FileSystem.Cleanup | bot/utils/temp_file.py:12-17 | the loop leaves exactly the old file set minus the given paths, and records each given path once, in order, as handed to removal |
| AudioConverter.ProcessTable.Launch | bot/services/audio_converter.py:48-52 | starting a process records its argument vector and nothing else |
| AudioConverter.SizeMb | bot/services/audio_converter.py:34 | a size in MB is non-negative and times 1,048,576 gives back the byte count |
| AudioConverter.OutputName | bot/services/audio_converter.py:31 | `<stem>_<hex[:8]>.mp3`; its meaning is stated by OutputPathBaseName |
| AudioConverter.OutputPath | bot/services/audio_converter.py:30-32 | the output name joined to the working directory; stated by OutputPathBaseName, OutputNameOfStagedInput and OutputPathDiffersFromTempPath |
| AudioConverter.OutputPathBaseName | bot/services/audio_converter.py:29-32 | the output sits directly in the working directory, named `<input stem>_<first 8 hex digits>.mp3` |
| AudioConverter.OutputNameOfStagedInput | bot/services/audio_converter.py:29-32 | for a staged input the output is named `<input hex>_<8 output hex digits>.mp3` |
| AudioConverter.OutputPathDiffersFromTempPath | bot/services/audio_converter.py:30-31 | an output path never equals a staged ".flac" path |
| AudioConverter.FfmpegArgs | bot/services/audio_converter.py:36-46 | the command has 14 arguments: the binary first, the input right after "-i", the output last |
| AudioConverter.FfmpegArgsRoundTrip | bot/services/audio_converter.py:36-46 | binary, input and output are read back from their own slots whatever characters they hold |
| AudioConverter.FfmpegArgsUnique | bot/services/audio_converter.py:36-46 | any command of that form is the fixed vector: the binary, input and output are all that vary |
| AudioConverter.MakeResult | bot/services/audio_converter.py:57-77 | success iff exit code 0; both paths echoed; original size is input bytes / 1,048,576; duration non-negative and end − start. On failure, converted size 0 and the error is the last min(500, len) characters of stderr. On success, no error and the converted size is output bytes / 1,048,576 |
| AudioConverter.MakeResultExamples | bot/services/audio_converter.py:57-77 | exit 1 with "Invalid data found" reports that text; 10 MiB to 4 MiB in 3.2 s reports 10.0, 4.0, 3.2 and no error |
| AudioConverter.ConvertFlacToMp3 | bot/services/audio_converter.py:25-77 | the result is MakeResult of the run, the staged input's size and the output's size on success; the argument vector is FfmpegArgs; the file set gains the output only when ffmpeg wrote one |
| Throttling.ThrottleKeyInjective | bot/middlewares/throttling.py:22 | distinct users have distinct "throttle:<id>" keys |
| Throttling.TruncateTowardZero | bot/middlewares/throttling.py:31 | `int(rate)` truncates toward zero, for negative rates too |
| Throttling.TtlSeconds | bot/middlewares/throttling.py:25 | Redis's `TTL` reply for a live key is non-negative and within half a second of the milliseconds left |
| Throttling.ThrottlingMiddleware.constructor | bot/middlewares/throttling.py:10-13 | a new middleware holds the configured rate and the shared store as it finds it, keys left by an earlier run included |
| Throttling.ThrottlingMiddleware.Live | bot/middlewares/throttling.py:24 | `EXISTS key`: the key is stored and its expiry instant has not passed, a key being alive at that very instant |
| Throttling.ThrottlingMiddleware.Tick | bot/middlewares/throttling.py:24 | time passing changes only the clock; keys that were within `int(rate)` seconds of the clock stay so |
| Throttling.ThrottlingMiddleware.Call | bot/middlewares/throttling.py:21-32 | `EXISTS` and the second command are two round trips, `lag` milliseconds apart, and the clock ends that much later. A key live at `EXISTS` rejects with `TTL`'s rounded seconds left at the second reading, or with -2 when it expired in between; store and handler are untouched. Otherwise the key is set to expire `int(rate)` seconds after the second reading and the handler runs once. A non-positive `int(rate)` raises before the handler. A reported wait is -2 or at least 0, at least 0 when there is no lag, and at most `int(rate)` when every stored key was within `int(rate)` seconds of the clock |
| Throttling.TwoMessagesWithinRate | bot/middlewares/throttling.py:22-32 | with a positive `int(rate)`, of two messages at most `int(rate)` seconds apart (to the millisecond), the first is handled and the second rejected with the rounded time left; with `int(rate)` ≤ 0 both raise, however far apart they are |
| Throttling.ExpiredBetweenCommands | bot/middlewares/throttling.py:24-27 | a key that expires between `EXISTS` and `TTL` makes the reply a wait of -2 seconds |
| Throttling.SecondMessageExamples | bot/middlewares/throttling.py:24-32 | at rate 2.0 a second message 1.6 s later and one exactly 2 s later are rejected with a wait of 0; one 2.001 s later is handled |
| Throttling.StaleKeyOutlivesRate | bot/middlewares/throttling.py:10-13 | a key left under a longer rate is honoured: 9 s left at rate 2.0 rejects with a wait of 9 |
| Throttling.OtherUserUnaffected | bot/middlewares/throttling.py:22-32 | one user's message never touches another user's key; it never makes that user throttled, and with no lag never lets them through either |
| Start.CountConversion | bot/handlers/converter.py:136-141 | counting a conversion never adds or removes a user row |
| Start.ConversionCount | bot/handlers/start.py:45 | the user's counter, or 0 without a row; CmdStats and CountConversionEffect state it |
| Start.CountConversionEffect | bot/handlers/converter.py:136-141 | the user's count rises by one when the row exists and stays 0 otherwise; other users' counts are unchanged |
| Start.Database.CmdStart | bot/handlers/start.py:12-36 | an unknown sender gains exactly one row with their id, names and 0 conversions; a known sender changes nothing; the greeting is sent either way |
| Start.Database.RecordConversion | bot/handlers/converter.py:127-141 | the log row is appended and the conversion is counted for the user if their row exists |
| Start.Database.CmdStats | bot/handlers/start.py:39-46 | /stats reports the sender's counter, or 0 without a row, and changes nothing |
| Start.StartThenCount | bot/handlers/start.py:16-26 | after /start the sender has a row, and a recorded conversion raises the reported count by one |
| Converter.IsFlacDocumentIff | bot/handlers/converter.py:16-23 | a message is a FLAC document iff a document is attached and its lower-cased name is something followed by ".flac" or its lower-cased MIME type is a FLAC type, a missing name or type reading as "" |
| Converter.IsFlacAudioIff | bot/handlers/converter.py:26-33 | the same rule for an audio attachment |
| Converter.IsFlacFile | bot/handlers/converter.py:21-23 | the shared rule on one attachment; IsFlacDocumentIff and IsFlacAudioIff state its meaning |
| Converter.IsFlacDocument | bot/handlers/converter.py:16-23 | `_is_flac_document`; stated by IsFlacDocumentIff |
| Converter.IsFlacAudio | bot/handlers/converter.py:26-33 | `_is_flac_audio`; stated by IsFlacAudioIff |
| Converter.FlacDetectionExamples | bot/handlers/converter.py:21-23 | "Track.FLAC" and the type "Audio/X-FLAC" are taken; "track.flac.mp3" with "audio/mpeg", and an attachment without name or type, are not |
| Converter.FileNameOrDefault | bot/handlers/converter.py:154 | `file_name or "audio.flac"` keeps a present non-empty name, and a missing or empty name becomes "audio.flac" |
| Converter.FileSizeOrDefault | bot/handlers/converter.py:155 | `file_size or 0` keeps a present size and gives 0 for a missing one |
| Converter.RequestFor | bot/handlers/converter.py:153-155 | the file id, the name or "audio.flac", the size or 0; stated by FileNameOrDefault, FileSizeOrDefault and RequestForDefaults |
| Converter.DocumentRequest | bot/handlers/converter.py:148-156 | the request built from the document |
| Converter.AudioRequest | bot/handlers/converter.py:161-169 | the request built from the audio attachment |
| Converter.Mp3Name | bot/handlers/converter.py:104 | `splitext(file_name)[0] + ".mp3"`; stated by Mp3NameReplacesExtension and Mp3NameWithoutExtension |
| Converter.Mp3NameReplacesExtension | bot/handlers/converter.py:104 | "name.ext" is answered as "name.mp3" |
| Converter.Mp3NameWithoutExtension | bot/handlers/converter.py:104 | a name without a dot just gains ".mp3" |
| Converter.RequestForDefaults | bot/handlers/converter.py:167-168 | an attachment without name and size is answered as "audio.mp3" with a size of 0 |
| Converter.CheckSize | bot/handlers/converter.py:44-65 | the two ordered checks on the size in megabytes; CheckSizeInBytes states them in bytes |
| Converter.CheckSizeInBytes | bot/handlers/converter.py:44-65 | the transport rejection happens iff the size exceeds 20·1,048,576 bytes; otherwise the configured rejection happens iff it exceeds max·1,048,576 bytes |
| Converter.ConfiguredLimitUnreachable | bot/handlers/converter.py:47-59 | with a configured ceiling of at least 20 MB only the transport check ever rejects |
| Converter.DefaultsOnlyTransportRejects | bot/handlers/converter.py:47-59 | with the shipped ceiling of 50 MB a request is rejected exactly when it exceeds 20·1,048,576 bytes, and never by the configured check |
| Converter.ExpectedOutcome | bot/handlers/converter.py:36-141 | the terminal state stage by stage; ExpectedOutcomeIff states it |
| Converter.ExpectedOutcomeIff | bot/handlers/converter.py:36-141 | each terminal state holds iff its own stage failed, or everything succeeded for delivery: rejected over the transport ceiling, rejected over the configured one, download failed, ffmpeg not started, ffmpeg failed, sending failed, delivered. A failed run reports the stderr tail of min(500, len) characters; a finished one names the MP3 by `splitext` |
| Converter.StagedPaths | bot/handlers/converter.py:72-125 | the ".flac" input once accepted, and the output once ffmpeg ran; stated by StagedPathsShape, StagedPathNames and StagedPathsCleanedOnce |
| Converter.StagedPathsShape | bot/handlers/converter.py:72-125 | a rejected request names no path; an accepted one names its ".flac" input first, and the output only when ffmpeg ran; the two are distinct |
| Converter.StagedPathsCleanedOnce | bot/handlers/converter.py:77-125 | each named path occurs exactly once among the paths the request hands to `cleanup` |
| Converter.StagedPathNames | bot/handlers/converter.py:72-94 | the staged input is named `<hex>.flac` and the output `<input hex>_<8 output hex digits>.mp3`, never after the user's file name |
| Converter.LogOf | bot/handlers/converter.py:127-133 | the log row from the sender, the file name, the two sizes in MB and the duration; ProcessFlac adds it exactly when the conversion succeeded |
| Converter.ProcessFlac | bot/handlers/converter.py:36-141 | outcome is ExpectedOutcome and the named paths are StagedPaths. The paths handed to `cleanup` are exactly the named paths, in order, once each (StagedPathsCleanedOnce), and the file set ends as before without them; except when ffmpeg cannot start, which cleans nothing and leaves the input. One ffmpeg process is started, on the two named paths, exactly when the download succeeded and ffmpeg could start; none after a rejection or a failed download. A log row and a count are added exactly when the conversion succeeded, whether or not sending worked |
| Converter.StageAndConvert | bot/handlers/converter.py:72-141 | the same after the size checks: a failed download hands only the input to `cleanup`, once, and starts no process |
| Converter.ConvertAndDeliver | bot/handlers/converter.py:94-141 | one ffmpeg process is started; input and output are handed to `cleanup` exactly once, in that order, on failure and on success alike; a failed run records nothing, a successful one records the conversion |
| Converter.Deliver | bot/handlers/converter.py:111-141 | the two paths are handed to `cleanup` exactly once whatever sending did, the reply names the MP3, and the log row and count follow even after a failed send |
| Converter.HandleFlacDocument | bot/handlers/converter.py:146-156 | a FLAC document is processed as the request built from it, by the sender, with all of ProcessFlac's promises: outcome, named paths, cleanup record, file set, started processes, log row and counter |
| Converter.HandleFlacAudio | bot/handlers/converter.py:159-169 | the same for a FLAC audio attachment, with the same outcome, named paths, cleanup record, file set, started processes, log row and counter |

## Left out

- Messaging: the status messages, their edits and deletion, the HTML texts and their
  `:.1f` formatting are user interface; only which terminal state a request reaches is modelled,
  and every reply and edit is taken to succeed (what a failing one would do is the next line).
- Converter.ProcessFlac (and with it StageAndConvert, ConvertAndDeliver, Deliver and the two
  handlers) assumes the status edits never raise, for example under Telegram's flood control.
  An edit raising at bot/handlers/converter.py:89, after a successful download, would leave the
  staged input on disk and start no conversion. One raising at :106, after a successful
  conversion, would leave both the input and the output on disk and send nothing. One raising
  at :123, after a failed send, would still clean both paths in the `finally` but skip the log
  row and the count at :127-141. A failing `status.delete()` at :143 comes after the log row and
  the count; whether they are then committed depends on the session handling, which is not part
  of this model.
- Network I/O: the Telegram download and upload are inputs (`Download`, `delivered`). Telling a
  "too big" download error apart by its text only changes the message, so it is left out.
- The conversion semaphore (`asyncio.Semaphore(3)`, with 3 hard-coded rather than configured)
  only bounds concurrency. Its `async with` scoping releases the permit on every exit.
  Concurrency, cancellation and the interleaving of requests are not modelled.
- The ffmpeg process is an input (`Run`): its exit code, its standard error already decoded as
  text (UTF-8 decoding with replacement is not modelled), and the size of what it wrote.
- uuid randomness: the hex strings are inputs; their global uniqueness is not provable.
- Floating point: sizes and durations are exact reals and sizes are compared in whole bytes, so
  float rounding is not modelled.
- Strings.Lower: only ASCII letters are mapped; Python's full Unicode case mapping is not modelled.
- Paths.Stem: only the POSIX rules are modelled; `pathlib`'s normalisation of "." and repeated
  separators is not.
- Redis: `EXISTS` followed by `TTL` or `SETEX` is modelled as two readings of one clock for one
  message, not as a race between concurrent messages. The store's clock is an input, in milliseconds, that only moves forward (`Tick`). Store outages are not modelled, and neither is a fail-closed policy, which the code
  does not have. The middleware is modelled standalone: the bot never registers it.
- The aiogram router's first-match dispatch order, and the handlers for non-FLAC attachments,
  which only reply with text.
- TempFile.FileSystem.Cleanup: only absence counts as an `OSError`; other removal failures
  (permissions, a directory) are not modelled.
- AudioConverter.ConvertFlacToMp3: a failing `os.path.getsize` is not modelled. A successful run
  always leaves its output.
- Configuration loading, the database engine and session plumbing, bootstrap, and the schema
  (apart from the `total_conversions` default of 0).
