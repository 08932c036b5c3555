/**
 * The conversion handlers: which messages count as FLAC, the request each
 * handler builds from its message, and the per-request orchestration
 * (size checks, staging, conversion, delivery, cleanup, records).
 */
module Converter {
  import opened Wrappers
  import opened Strings
  import opened Paths
  import opened Config
  import opened TempFile
  import opened AudioConverter
  import opened Start

  /** A Telegram document or audio attachment, each part as the Bot API may omit it. */
  datatype FileInfo = FileInfo(fileId: string, fileName: Option<string>, mimeType: Option<string>, fileSize: Option<nat>)

  /** An incoming message: its sender and its possible attachments. */
  datatype Message = Message(fromUser: int, document: Option<FileInfo>, audio: Option<FileInfo>)

  /** The rule both filters share: a ".flac" name or a FLAC MIME type, compared in lower
      case, where a missing name or type reads as "". */
  predicate IsFlacFile(f: FileInfo) {
    var name := Lower(f.fileName.GetOr(""));
    var mime := Lower(f.mimeType.GetOr(""));
    EndsWith(name, ".flac") || mime == "audio/flac" || mime == "audio/x-flac"
  }

  /** `_is_flac_document`. */
  predicate IsFlacDocument(m: Message) {
    m.document.Some? && IsFlacFile(m.document.value)
  }

  /** `_is_flac_audio`. */
  predicate IsFlacAudio(m: Message) {
    m.audio.Some? && IsFlacFile(m.audio.value)
  }

  /** The reference reading of the rule: the lower-cased name is something followed by ".flac",
      or the lower-cased MIME type is one of the two FLAC types. */
  ghost predicate FlacByNameOrType(name: Option<string>, mime: Option<string>) {
    (exists base :: Lower(name.GetOr("")) == base + ".flac")
    || Lower(mime.GetOr("")) in {"audio/flac", "audio/x-flac"}
  }

  /** A document is taken for FLAC exactly when one is attached and its name or type says so. */
  lemma IsFlacDocumentIff(m: Message)
    ensures IsFlacDocument(m) <==>
              m.document.Some? && FlacByNameOrType(m.document.value.fileName, m.document.value.mimeType)
  {
    if m.document.Some? {
      EndsWithIff(Lower(m.document.value.fileName.GetOr("")), ".flac");
    }
  }

  /** The same rule for an audio attachment. */
  lemma IsFlacAudioIff(m: Message)
    ensures IsFlacAudio(m) <==>
              m.audio.Some? && FlacByNameOrType(m.audio.value.fileName, m.audio.value.mimeType)
  {
    if m.audio.Some? {
      EndsWithIff(Lower(m.audio.value.fileName.GetOr("")), ".flac");
    }
  }

  /** Case does not matter, and the MIME type alone suffices. */
  lemma FlacDetectionExamples()
    ensures IsFlacFile(FileInfo("id", Some("Track.FLAC"), None, None))
    ensures IsFlacFile(FileInfo("id", None, Some("Audio/X-FLAC"), None))
    ensures !IsFlacFile(FileInfo("id", Some("track.flac.mp3"), Some("audio/mpeg"), None))
    ensures !IsFlacFile(FileInfo("id", None, None, None))
  {
    assert Lower("Track.FLAC")[5..] == ".flac";
    assert Lower("Audio/X-FLAC") == "audio/x-flac";
    assert Lower("track.flac.mp3")[13] == '3';
    assert Lower("audio/mpeg")[6] == 'm';
  }

  /** The request `_process_flac` is given. */
  datatype Request = Request(fileId: string, fileName: string, fileSize: nat)

  /** `file_name or "audio.flac"`: a missing or empty name falls back to "audio.flac". */
  function FileNameOrDefault(name: Option<string>): (r: string)
    ensures r != ""
    ensures name.Some? && name.value != "" ==> r == name.value
    ensures name.None? || name == Some("") ==> r == "audio.flac"
  {
    match name
    case Some(n) => if n != "" then n else "audio.flac"
    case None => "audio.flac"
  }

  /** `file_size or 0`. */
  function FileSizeOrDefault(size: Option<nat>): (r: nat)
    ensures size.Some? ==> r == size.value
    ensures size.None? ==> r == 0
  {
    size.GetOr(0)
  }

  /** The arguments `handle_flac_document` and `handle_flac_audio` pass on. */
  function RequestFor(f: FileInfo): Request {
    Request(f.fileId, FileNameOrDefault(f.fileName), FileSizeOrDefault(f.fileSize))
  }

  /** `handle_flac_document`'s request. */
  function DocumentRequest(m: Message): Request
    requires m.document.Some?
  {
    RequestFor(m.document.value)
  }

  /** `handle_flac_audio`'s request. */
  function AudioRequest(m: Message): Request
    requires m.audio.Some?
  {
    RequestFor(m.audio.value)
  }

  /** The name of the MP3 sent back: the file name without its last extension, plus ".mp3". */
  function Mp3Name(fileName: string): string {
    SplitExtRoot(fileName) + ".mp3"
  }

  /** "name.ext" becomes "name.mp3". */
  lemma Mp3NameReplacesExtension(base: string, ext: string)
    requires '/' !in base && '/' !in ext && '.' !in ext
    requires exists k :: 0 <= k < |base| && base[k] != '.'
    ensures Mp3Name(base + "." + ext) == base + ".mp3"
  {
    SplitExtRootOfExtension(base, ext);
  }

  /** A name without any '.' just gains ".mp3". */
  lemma Mp3NameWithoutExtension(name: string)
    requires '.' !in name
    ensures Mp3Name(name) == name + ".mp3"
  {
    assert forall i :: 0 <= i < |name| ==> name[i] != '.';
  }

  /** An attachment without a name is answered with "audio.mp3", and one without a size
      counts as 0 bytes. */
  lemma RequestForDefaults(f: FileInfo)
    requires f.fileName.None? && f.fileSize.None?
    ensures Mp3Name(RequestFor(f).fileName) == "audio.mp3" && RequestFor(f).fileSize == 0
  {
    assert "audio.flac" == "audio" + "." + "flac";
    assert "audio"[0] != '.';
    Mp3NameReplacesExtension("audio", "flac");
  }

  /** What the Bot API can download, in binary megabytes. */
  const TransportLimitMb: nat := 20

  /** The two size checks, in the order they run. */
  datatype SizeVerdict = OverTransportLimit | OverConfiguredLimit | WithinLimits

  /** The size checks as `_process_flac` writes them, on the size in megabytes. */
  function CheckSize(fileSize: nat, maxFileSizeMb: int): SizeVerdict {
    var sizeMb := SizeMb(fileSize);
    if sizeMb > TransportLimitMb as real then OverTransportLimit
    else if sizeMb > maxFileSizeMb as real then OverConfiguredLimit
    else WithinLimits
  }

  /** The same checks on whole bytes: the transport ceiling of 20 MiB is tested first, and
      the configured ceiling only for files that pass it. */
  lemma CheckSizeInBytes(fileSize: nat, maxFileSizeMb: int)
    ensures CheckSize(fileSize, maxFileSizeMb) == OverTransportLimit <==> fileSize > 20 * MiB
    ensures CheckSize(fileSize, maxFileSizeMb) == OverConfiguredLimit
            <==> fileSize <= 20 * MiB && fileSize > maxFileSizeMb * MiB
    ensures CheckSize(fileSize, maxFileSizeMb) == WithinLimits
            <==> fileSize <= 20 * MiB && fileSize <= maxFileSizeMb * MiB
  {
    var mb := SizeMb(fileSize);
    assert mb * 1048576.0 == fileSize as real;
    assert (maxFileSizeMb * MiB) as real == maxFileSizeMb as real * 1048576.0;
  }

  /** With a configured ceiling of at least 20 MiB (the shipped default is 50), only the
      transport ceiling ever rejects. */
  lemma ConfiguredLimitUnreachable(fileSize: nat, maxFileSizeMb: int)
    requires maxFileSizeMb >= TransportLimitMb
    ensures CheckSize(fileSize, maxFileSizeMb) != OverConfiguredLimit
  {
    CheckSizeInBytes(fileSize, maxFileSizeMb);
  }

  /** With the shipped settings a request is either rejected over the transport ceiling or
      accepted: the configured ceiling of 50 MB never rejects. */
  lemma DefaultsOnlyTransportRejects(fileSize: nat)
    ensures CheckSize(fileSize, Defaults.maxFileSizeMb) != OverConfiguredLimit
    ensures CheckSize(fileSize, Defaults.maxFileSizeMb) == WithinLimits <==> fileSize <= 20 * MiB
  {
    ConfiguredLimitUnreachable(fileSize, Defaults.maxFileSizeMb);
    CheckSizeInBytes(fileSize, Defaults.maxFileSizeMb);
  }

  /** How fetching the file from Telegram went: the bytes it wrote, or an error that may have
      left a partial file behind. */
  datatype Download = Downloaded(bytes: nat) | DownloadError(partial: bool)

  /** Whether ffmpeg could be started at all; `LaunchFailed` is `create_subprocess_exec` raising. */
  datatype Transcode = Launched(run: Run) | LaunchFailed

  /** Everything the orchestration learns from outside: the two random hex strings, the
      download, the transcoder, the two monotonic clock readings, whether sending succeeded. */
  datatype Env = Env(
    inputHex: string,
    outputHex: string,
    download: Download,
    transcode: Transcode,
    clockStart: real,
    clockEnd: real,
    delivered: bool
  )

  /** Where one request ends. */
  datatype Outcome =
    | RejectedOverTransport
    | RejectedOverLimit
    | DownloadFailed
    | ConversionRaised
    | ConversionFailed(error: Option<string>)
    | DeliveryFailed(mp3Name: string)
    | Delivered(mp3Name: string)

  /** The request passed both size checks. */
  predicate Accepted(settings: Settings, req: Request) {
    CheckSize(req.fileSize, settings.maxFileSizeMb) == WithinLimits
  }

  /** The input was downloaded. */
  predicate Staged(settings: Settings, req: Request, env: Env) {
    Accepted(settings, req) && env.download.Downloaded?
  }

  /** ffmpeg ran to completion. */
  predicate Ran(settings: Settings, req: Request, env: Env) {
    Staged(settings, req, env) && env.transcode.Launched?
  }

  /** The conversion succeeded. */
  predicate Converted(settings: Settings, req: Request, env: Env) {
    Accepted(settings, req) && Succeeded(env)
  }

  /** The download and the ffmpeg run both succeeded. */
  predicate Succeeded(env: Env) {
    env.download.Downloaded? && env.transcode.Launched? && env.transcode.run.returnCode == 0
  }

  /** Where a finished ffmpeg run leads: the tail of its error output, or the MP3 sent or
      not sent under its new name. */
  function RunOutcome(run: Run, delivered: bool, fileName: string): Outcome {
    if run.returnCode != 0 then ConversionFailed(Some(LastN(run.stderrText, ErrorTailLength)))
    else if delivered then Delivered(Mp3Name(fileName))
    else DeliveryFailed(Mp3Name(fileName))
  }

  /** Where a request that passed the size checks ends. */
  function AcceptedOutcome(req: Request, env: Env): Outcome {
    match env.download
    case DownloadError(_) => DownloadFailed
    case Downloaded(_) =>
      match env.transcode
      case LaunchFailed => ConversionRaised
      case Launched(run) => RunOutcome(run, env.delivered, req.fileName)
  }

  /** The terminal state of one request, stage by stage. */
  function ExpectedOutcome(settings: Settings, req: Request, env: Env): Outcome {
    match CheckSize(req.fileSize, settings.maxFileSizeMb)
    case OverTransportLimit => RejectedOverTransport
    case OverConfiguredLimit => RejectedOverLimit
    case WithinLimits => AcceptedOutcome(req, env)
  }

  /** Each outcome is reached exactly on its own path through the stages; a failed run
      reports the last 500 characters of ffmpeg's error output, and a finished conversion
      names the MP3 after the original file. */
  lemma ExpectedOutcomeIff(settings: Settings, req: Request, env: Env)
    ensures var o := ExpectedOutcome(settings, req, env);
            && (o.RejectedOverTransport? <==> CheckSize(req.fileSize, settings.maxFileSizeMb) == OverTransportLimit)
            && (o.RejectedOverLimit? <==> CheckSize(req.fileSize, settings.maxFileSizeMb) == OverConfiguredLimit)
            && (o.DownloadFailed? <==> Accepted(settings, req) && env.download.DownloadError?)
            && (o.ConversionRaised? <==> Staged(settings, req, env) && env.transcode.LaunchFailed?)
            && (o.ConversionFailed? <==> Ran(settings, req, env) && env.transcode.run.returnCode != 0)
            && (o.DeliveryFailed? <==> Converted(settings, req, env) && !env.delivered)
            && (o.Delivered? <==> Converted(settings, req, env) && env.delivered)
    ensures var o := ExpectedOutcome(settings, req, env);
            o.ConversionFailed? ==> o.error.Some? && |o.error.value| == Min(ErrorTailLength, |env.transcode.run.stderrText|)
                                    && env.transcode.run.stderrText == env.transcode.run.stderrText[..|env.transcode.run.stderrText| - |o.error.value|] + o.error.value
    ensures var o := ExpectedOutcome(settings, req, env);
            o.DeliveryFailed? || o.Delivered? ==> o.mp3Name == SplitExtRoot(req.fileName) + ".mp3"
  {
  }

  /** The temporary paths a request names once it passed the size checks: its input, and the
      output once ffmpeg ran. */
  function StagedFrom(tempDir: string, inputPath: string, env: Env): seq<string> {
    if env.download.Downloaded? && env.transcode.Launched?
    then [inputPath, OutputPath(tempDir, inputPath, env.outputHex)]
    else [inputPath]
  }

  /** The temporary paths a request names. */
  function StagedPaths(settings: Settings, req: Request, env: Env): seq<string> {
    if Accepted(settings, req) then StagedFrom(settings.tempDir, TempPath(settings.tempDir, env.inputHex, "flac"), env)
    else []
  }

  /** A rejected request names no path; an accepted one first its ".flac" input, and the
      output only once ffmpeg ran; the two are distinct, so cleanup removes both. */
  lemma StagedPathsShape(settings: Settings, req: Request, env: Env)
    ensures var s := StagedPaths(settings, req, env);
            && (!Accepted(settings, req) <==> s == [])
            && (Accepted(settings, req) ==> s[0] == TempPath(settings.tempDir, env.inputHex, "flac"))
            && (Ran(settings, req, env) <==> |s| == 2)
            && (Ran(settings, req, env) ==> s[1] == OutputPath(settings.tempDir, s[0], env.outputHex) && s[0] != s[1])
  {
    if Ran(settings, req, env) {
      var input := TempPath(settings.tempDir, env.inputHex, "flac");
      OutputPathDiffersFromTempPath(settings.tempDir, input, env.outputHex, env.inputHex);
    }
  }

  /** Each staged path occurs exactly once among the paths a request hands to `cleanup`. */
  lemma StagedPathsCleanedOnce(settings: Settings, req: Request, env: Env, p: string)
    requires p in StagedPaths(settings, req, env)
    ensures multiset(StagedPaths(settings, req, env))[p] == 1
  {
    StagedPathsShape(settings, req, env);
  }

  /** With random hex strings as `uuid4().hex` gives them, the staged names are the input's
      hex with ".flac", and the input's hex, 8 digits of the output's and ".mp3". */
  lemma StagedPathNames(settings: Settings, req: Request, env: Env)
    requires IsUuidHex(env.inputHex) && IsUuidHex(env.outputHex)
    ensures var s := StagedPaths(settings, req, env);
            && (Accepted(settings, req) ==> BaseName(s[0]) == env.inputHex + ".flac")
            && (Ran(settings, req, env) ==> BaseName(s[1]) == env.inputHex + "_" + env.outputHex[..8] + ".mp3")
  {
    var s := StagedPaths(settings, req, env);
    if Accepted(settings, req) {
      var input := TempPath(settings.tempDir, env.inputHex, "flac");
      assert s[0] == input;
      TempPathBaseName(settings.tempDir, env.inputHex, "flac");
      assert LStrip("flac", '.') == "flac";
      if Ran(settings, req, env) {
        assert s[1] == OutputPath(settings.tempDir, input, env.outputHex);
        OutputNameOfStagedInput(settings.tempDir, env.inputHex, env.outputHex);
      }
    }
  }

  /** The conversion record `_process_flac` adds, from the measured sizes and clock readings. */
  function LogOf(userId: int, req: Request, env: Env): ConversionLog
    requires env.download.Downloaded? && env.transcode.Launched?
  {
    ConversionLog(userId, req.fileName, SizeMb(env.download.bytes), SizeMb(env.transcode.run.outputBytes),
                  env.clockEnd - env.clockStart)
  }

  /** `_process_flac` for the sender `userId`; `staged` lists the temporary paths the request
      names. Every path handed to `cleanup` is recorded in `fs.removed`, every ffmpeg process
      started in `procs.launched`. */
  method ProcessFlac(fs: FileSystem, procs: ProcessTable, db: Database, settings: Settings, req: Request,
                     userId: int, env: Env)
    returns (outcome: Outcome, staged: seq<string>)
    requires db.Valid()
    requires env.clockStart <= env.clockEnd
    modifies fs, procs, db
    ensures db.Valid()
    ensures outcome == ExpectedOutcome(settings, req, env)
    ensures staged == StagedPaths(settings, req, env)
    ensures fs.removed == old(fs.removed) + if outcome.ConversionRaised? then [] else staged
    ensures fs.files == if outcome.ConversionRaised? then old(fs.files)[staged[0] := env.download.bytes]
                        else old(fs.files) - (set p | p in staged)
    ensures procs.launched == old(procs.launched) + if Ran(settings, req, env)
                                                    then [FfmpegArgs(settings.ffmpegPath, staged[0], staged[1])] else []
    ensures db.logs == if Converted(settings, req, env) then old(db.logs) + [LogOf(userId, req, env)] else old(db.logs)
    ensures db.users == if Converted(settings, req, env) then CountConversion(old(db.users), userId) else old(db.users)
  {
    var verdict := CheckSize(req.fileSize, settings.maxFileSizeMb);
    if verdict != WithinLimits {
      // the answer names the limit that was hit; nothing is staged
      outcome := if verdict == OverTransportLimit then RejectedOverTransport else RejectedOverLimit;
      return outcome, [];
    }
    var inputPath := TempPath(settings.tempDir, env.inputHex, "flac");
    outcome, staged := StageAndConvert(fs, procs, db, settings, req, userId, env, inputPath);
  }

  /** The part of `_process_flac` after the size checks: download to `inputPath`, convert,
      deliver, clean up and record. */
  method StageAndConvert(fs: FileSystem, procs: ProcessTable, db: Database, settings: Settings, req: Request,
                         userId: int, env: Env, inputPath: string)
    returns (outcome: Outcome, staged: seq<string>)
    requires db.Valid()
    requires env.clockStart <= env.clockEnd
    modifies fs, procs, db
    ensures db.Valid()
    ensures outcome == AcceptedOutcome(req, env)
    ensures staged == StagedFrom(settings.tempDir, inputPath, env)
    ensures fs.removed == old(fs.removed) + if outcome.ConversionRaised? then [] else staged
    ensures fs.files == if outcome.ConversionRaised? then old(fs.files)[inputPath := env.download.bytes]
                        else old(fs.files) - (set p | p in staged)
    ensures procs.launched == old(procs.launched) + if |staged| == 2
                                                    then [FfmpegArgs(settings.ffmpegPath, staged[0], staged[1])] else []
    ensures db.logs == if Succeeded(env) then old(db.logs) + [LogOf(userId, req, env)] else old(db.logs)
    ensures db.users == if Succeeded(env) then CountConversion(old(db.users), userId) else old(db.users)
  {
    match env.download {
      case DownloadError(partial) =>
        if partial {
          fs.Write(inputPath, 0);
        }
        fs.Cleanup([inputPath]);
        CleanupOfWrittenPair(old(fs.files), inputPath, 0, inputPath, 0, false);
        return DownloadFailed, [inputPath];
      case Downloaded(bytes) =>
        fs.Write(inputPath, bytes);
    }
    if env.transcode.LaunchFailed? {
      // `create_subprocess_exec` raised: the exception leaves `_process_flac` before any cleanup
      return ConversionRaised, [inputPath];
    }
    var outputPath;
    outcome, outputPath := ConvertAndDeliver(fs, procs, db, settings, req, userId, env, inputPath, old(fs.files));
    staged := [inputPath, outputPath];
  }

  /** The part of `_process_flac` after a successful download: convert, and on success
      deliver; clean both paths in either case; on success record the conversion. */
  method ConvertAndDeliver(fs: FileSystem, procs: ProcessTable, db: Database, settings: Settings, req: Request,
                           userId: int, env: Env, inputPath: string, ghost before: map<string, nat>)
    returns (outcome: Outcome, outputPath: string)
    requires db.Valid()
    requires env.clockStart <= env.clockEnd
    requires env.download.Downloaded? && env.transcode.Launched?
    requires fs.files == before[inputPath := env.download.bytes]
    modifies fs, procs, db
    ensures db.Valid()
    ensures outputPath == OutputPath(settings.tempDir, inputPath, env.outputHex)
    ensures fs.removed == old(fs.removed) + [inputPath, outputPath]
    ensures fs.files == before - (set p | p in [inputPath, outputPath])
    ensures procs.launched == old(procs.launched) + [FfmpegArgs(settings.ffmpegPath, inputPath, outputPath)]
    ensures outcome == RunOutcome(env.transcode.run, env.delivered, req.fileName)
    ensures db.logs == if Succeeded(env) then old(db.logs) + [LogOf(userId, req, env)] else old(db.logs)
    ensures db.users == if Succeeded(env) then CountConversion(old(db.users), userId) else old(db.users)
  {
    var run := env.transcode.run;
    var result := ConvertFlacToMp3(fs, procs, settings, inputPath, env.outputHex, run, env.clockStart, env.clockEnd);
    outputPath := result.outputPath;
    CleanupOfWrittenPair(before, inputPath, env.download.bytes, outputPath, run.outputBytes,
                         run.returnCode == 0 || run.partialOutput);
    if !result.success {
      fs.Cleanup([inputPath, outputPath]);
      return ConversionFailed(result.error), outputPath;
    }
    assert LogOf(userId, req, env) == ConversionLog(userId, req.fileName, result.originalSizeMb,
                                                    result.convertedSizeMb, result.duration);
    outcome := Deliver(fs, db, req, userId, result, env.delivered, [inputPath, outputPath]);
  }

  /** Send the MP3 (whether that worked is `delivered`), clean both paths in the `finally`,
      then add the log record and count the conversion. */
  method Deliver(fs: FileSystem, db: Database, req: Request, userId: int, result: ConversionResult,
                 delivered: bool, paths: seq<string>)
    returns (outcome: Outcome)
    requires db.Valid()
    modifies fs, db
    ensures db.Valid()
    ensures fs.removed == old(fs.removed) + paths
    ensures fs.files == old(fs.files) - (set p | p in paths)
    ensures outcome == if delivered then Delivered(Mp3Name(req.fileName)) else DeliveryFailed(Mp3Name(req.fileName))
    ensures db.logs == old(db.logs) + [ConversionLog(userId, req.fileName, result.originalSizeMb,
                                                     result.convertedSizeMb, result.duration)]
    ensures db.users == CountConversion(old(db.users), userId)
  {
    var mp3Name := Mp3Name(req.fileName);
    // however sending ends, the `finally` cleans both paths once
    fs.Cleanup(paths);
    outcome := if delivered then Delivered(mp3Name) else DeliveryFailed(mp3Name);
    // the failed send is not a return: the log and the counter follow either way
    var log := ConversionLog(userId, req.fileName, result.originalSizeMb, result.convertedSizeMb, result.duration);
    db.RecordConversion(log);
  }

  /** `handle_flac_document`: the router calls it for a message whose document passed
      `_is_flac_document`; it hands the document's request to `_process_flac`. */
  method HandleFlacDocument(fs: FileSystem, procs: ProcessTable, db: Database, settings: Settings, m: Message, env: Env)
    returns (outcome: Outcome, staged: seq<string>)
    requires m.document.Some?
    requires db.Valid()
    requires env.clockStart <= env.clockEnd
    modifies fs, procs, db
    ensures db.Valid()
    ensures outcome == ExpectedOutcome(settings, DocumentRequest(m), env)
    ensures staged == StagedPaths(settings, DocumentRequest(m), env)
    ensures fs.removed == old(fs.removed) + if outcome.ConversionRaised? then [] else staged
    ensures fs.files == if outcome.ConversionRaised? then old(fs.files)[staged[0] := env.download.bytes]
                        else old(fs.files) - (set p | p in staged)
    ensures procs.launched == old(procs.launched) + if Ran(settings, DocumentRequest(m), env)
                                                    then [FfmpegArgs(settings.ffmpegPath, staged[0], staged[1])] else []
    ensures db.logs == if Converted(settings, DocumentRequest(m), env)
                       then old(db.logs) + [LogOf(m.fromUser, DocumentRequest(m), env)] else old(db.logs)
    ensures db.users == if Converted(settings, DocumentRequest(m), env)
                        then CountConversion(old(db.users), m.fromUser) else old(db.users)
  {
    outcome, staged := ProcessFlac(fs, procs, db, settings, DocumentRequest(m), m.fromUser, env);
  }

  /** `handle_flac_audio`: the same for an audio attachment that passed `_is_flac_audio`. */
  method HandleFlacAudio(fs: FileSystem, procs: ProcessTable, db: Database, settings: Settings, m: Message, env: Env)
    returns (outcome: Outcome, staged: seq<string>)
    requires m.audio.Some?
    requires db.Valid()
    requires env.clockStart <= env.clockEnd
    modifies fs, procs, db
    ensures db.Valid()
    ensures outcome == ExpectedOutcome(settings, AudioRequest(m), env)
    ensures staged == StagedPaths(settings, AudioRequest(m), env)
    ensures fs.removed == old(fs.removed) + if outcome.ConversionRaised? then [] else staged
    ensures fs.files == if outcome.ConversionRaised? then old(fs.files)[staged[0] := env.download.bytes]
                        else old(fs.files) - (set p | p in staged)
    ensures procs.launched == old(procs.launched) + if Ran(settings, AudioRequest(m), env)
                                                    then [FfmpegArgs(settings.ffmpegPath, staged[0], staged[1])] else []
    ensures db.logs == if Converted(settings, AudioRequest(m), env)
                       then old(db.logs) + [LogOf(m.fromUser, AudioRequest(m), env)] else old(db.logs)
    ensures db.users == if Converted(settings, AudioRequest(m), env)
                        then CountConversion(old(db.users), m.fromUser) else old(db.users)
  {
    outcome, staged := ProcessFlac(fs, procs, db, settings, AudioRequest(m), m.fromUser, env);
  }
}
