/**
 * The transcoder: given a staged FLAC file, name the MP3 output, build the
 * ffmpeg argument vector, run it (its outcome is an input here) and describe
 * the outcome as a ConversionResult.
 */
module AudioConverter {
  import opened Wrappers
  import opened Strings
  import opened Paths
  import opened Config
  import opened TempFile

  /** One binary megabyte. */
  const MiB: nat := 1048576

  /** Longest tail of ffmpeg's diagnostics kept in a failed result. */
  const ErrorTailLength: nat := 500

  /** What one conversion produced; `error` is present exactly on failure. */
  datatype ConversionResult = ConversionResult(
    success: bool,
    inputPath: string,
    outputPath: string,
    originalSizeMb: real,
    convertedSizeMb: real,
    duration: real,
    error: Option<string>
  )

  /** The observable outcome of one ffmpeg process that was started: its exit code, its
      standard error decoded as text, the size of the output file it left, and whether
      a failing run still left (a part of) the output file behind. */
  datatype Run = Exited(returnCode: int, stderrText: string, outputBytes: nat, partialOutput: bool)

  /** A byte count in binary megabytes. */
  function SizeMb(bytes: nat): (mb: real)
    ensures mb >= 0.0 && mb * MiB as real == bytes as real
  {
    bytes as real / MiB as real
  }

  /** `<stem of the input>_<first 8 hex digits>.mp3`. */
  function OutputName(inputPath: string, hex: string): string {
    Stem(inputPath) + "_" + Prefix(hex, 8) + ".mp3"
  }

  /** The output path: the output name inside the working directory. */
  function OutputPath(tempDir: string, inputPath: string, hex: string): string {
    Join(tempDir, OutputName(inputPath, hex))
  }

  /** The output file sits directly in the working directory and is named after the input's
      stem and the random hex only. */
  lemma OutputPathBaseName(tempDir: string, inputPath: string, hex: string)
    requires '/' !in hex
    ensures BaseName(OutputPath(tempDir, inputPath, hex)) == Stem(inputPath) + "_" + Prefix(hex, 8) + ".mp3"
  {
    var stem, h := Stem(inputPath), Prefix(hex, 8);
    assert '/' !in stem by {
      forall i | 0 <= i < |stem| ensures stem[i] != '/' { }
    }
    assert '/' !in h by {
      assert h == hex[..|h|];
      forall i | 0 <= i < |h| ensures h[i] != '/' {
        assert h[i] == hex[i];
      }
    }
    assert OutputName(inputPath, hex) == stem + ("_" + (h + ".mp3"));
    BaseNameOfJoin(tempDir, OutputName(inputPath, hex));
  }

  /** For a staged input, the output file name depends only on the two random hex strings. */
  lemma OutputNameOfStagedInput(tempDir: string, inHex: string, outHex: string)
    requires IsUuidHex(inHex) && IsUuidHex(outHex)
    ensures BaseName(OutputPath(tempDir, TempPath(tempDir, inHex, "flac"), outHex))
         == inHex + "_" + outHex[..8] + ".mp3"
  {
    assert '/' !in outHex by {
      forall i | 0 <= i < |outHex| ensures outHex[i] != '/' {
        assert IsHexDigit(outHex[i]);
      }
    }
    TempPathStem(tempDir, inHex);
    OutputPathBaseName(tempDir, TempPath(tempDir, inHex, "flac"), outHex);
  }

  /** An output path is never a staged ".flac" path: the two cannot be confused by cleanup. */
  lemma OutputPathDiffersFromTempPath(tempDir: string, inputPath: string, hex: string, inHex: string)
    ensures OutputPath(tempDir, inputPath, hex) != TempPath(tempDir, inHex, "flac")
  {
    var o, t := OutputPath(tempDir, inputPath, hex), TempPath(tempDir, inHex, "flac");
    var on, tn := OutputName(inputPath, hex), TempName(inHex, "flac");
    assert o[|o| - 1] == on[|on| - 1] == '3';
    assert t[|t| - 1] == tn[|tn| - 1] == 'c';
  }

  /** The fixed ffmpeg command line: overwrite, drop video streams, LAME at a constant
      320 kbit/s, copy the metadata, ID3v2.3 tags. */
  function FfmpegArgs(ffmpegPath: string, inputPath: string, outputPath: string): (args: seq<string>)
    ensures |args| == 14 && args[0] == ffmpegPath && args[13] == outputPath
    ensures args[2] == "-i" && args[3] == inputPath
  {
    [ffmpegPath, "-y", "-i", inputPath, "-vn", "-codec:a", "libmp3lame", "-b:a", "320k",
     "-map_metadata", "0", "-id3v2_version", "3", outputPath]
  }

  /** Reads the binary, the input and the output back from a command line of that form. */
  function ParseFfmpegArgs(args: seq<string>): Option<(string, string, string)> {
    if |args| == 14 && args[1] == "-y" && args[2] == "-i" && args[4] == "-vn"
       && args[5] == "-codec:a" && args[6] == "libmp3lame" && args[7] == "-b:a" && args[8] == "320k"
       && args[9] == "-map_metadata" && args[10] == "0" && args[11] == "-id3v2_version" && args[12] == "3"
    then Some((args[0], args[3], args[13]))
    else None
  }

  /** Each path travels as one whole argument in its own slot, whatever characters it holds. */
  lemma FfmpegArgsRoundTrip(ffmpegPath: string, inputPath: string, outputPath: string)
    ensures ParseFfmpegArgs(FfmpegArgs(ffmpegPath, inputPath, outputPath)) == Some((ffmpegPath, inputPath, outputPath))
  {
  }

  /** The command line is determined by the binary, the input and the output: only those vary. */
  lemma FfmpegArgsUnique(args: seq<string>, ffmpegPath: string, inputPath: string, outputPath: string)
    requires ParseFfmpegArgs(args) == Some((ffmpegPath, inputPath, outputPath))
    ensures args == FfmpegArgs(ffmpegPath, inputPath, outputPath)
  {
    var expected := FfmpegArgs(ffmpegPath, inputPath, outputPath);
    forall i | 0 <= i < 14 ensures args[i] == expected[i] { }
  }

  /** The result of a finished ffmpeg run, from its exit code and the measured quantities:
      the file sizes in bytes and two readings of a monotonic clock. */
  function MakeResult(inputPath: string, outputPath: string, returnCode: int, stderrText: string,
                      inputBytes: nat, outputBytes: nat, start: real, end: real): (r: ConversionResult)
    requires start <= end
    ensures r.success <==> returnCode == 0
    ensures r.inputPath == inputPath && r.outputPath == outputPath
    ensures r.originalSizeMb * MiB as real == inputBytes as real
    ensures r.duration >= 0.0 && start + r.duration == end
    ensures r.success ==> r.error == None && r.convertedSizeMb * MiB as real == outputBytes as real
    ensures !r.success ==> r.convertedSizeMb == 0.0 && r.error.Some?
    ensures !r.success ==> |r.error.value| == Min(ErrorTailLength, |stderrText|)
    ensures !r.success ==> stderrText == stderrText[..|stderrText| - |r.error.value|] + r.error.value
  {
    if returnCode != 0 then
      ConversionResult(false, inputPath, outputPath, SizeMb(inputBytes), 0.0, end - start,
                       Some(LastN(stderrText, ErrorTailLength)))
    else
      ConversionResult(true, inputPath, outputPath, SizeMb(inputBytes), SizeMb(outputBytes), end - start, None)
  }

  /** Two sample outcomes: a failed run, and a 10 MiB input converted to 4 MiB in 3.2 seconds. */
  lemma MakeResultExamples()
    ensures MakeResult("in.flac", "out.mp3", 1, "Invalid data found", 10 * MiB, 0, 1.0, 2.0).error
         == Some("Invalid data found")
    ensures var r := MakeResult("in.flac", "out.mp3", 0, "", 10 * MiB, 4 * MiB, 0.0, 3.2);
            r.success && r.originalSizeMb == 10.0 && r.convertedSizeMb == 4.0 && r.duration == 3.2 && r.error == None
  {
  }

  /** The external processes started so far: the argument vector of each, in order. */
  class ProcessTable {
    var launched: seq<seq<string>>

    constructor ()
      ensures launched == []
    {
      launched := [];
    }

    /** `create_subprocess_exec(*argv)`: start one process with this argument vector. */
    method Launch(argv: seq<string>)
      modifies this
      ensures launched == old(launched) + [argv]
    {
      launched := launched + [argv];
    }
  }

  /** `convert_flac_to_mp3(input_path)`: `start` and `end` are the monotonic clock readings
      around the run, `hex` is the random `uuid4().hex`, and `run` is what the started ffmpeg
      process did. The input's size is read from the file system. */
  method ConvertFlacToMp3(fs: FileSystem, procs: ProcessTable, settings: Settings, inputPath: string, hex: string,
                          run: Run, start: real, end: real)
    returns (r: ConversionResult)
    requires inputPath in fs.files
    requires start <= end
    modifies fs, procs
    ensures r.outputPath == OutputPath(settings.tempDir, inputPath, hex)
    ensures procs.launched == old(procs.launched) + [FfmpegArgs(settings.ffmpegPath, inputPath, r.outputPath)]
    ensures r == MakeResult(inputPath, r.outputPath, run.returnCode, run.stderrText,
                            old(fs.files)[inputPath], if run.returnCode == 0 then run.outputBytes else 0, start, end)
    ensures fs.files == if run.returnCode == 0 || run.partialOutput
                        then old(fs.files)[r.outputPath := run.outputBytes] else old(fs.files)
    ensures fs.removed == old(fs.removed)
  {
    var outputPath := OutputPath(settings.tempDir, inputPath, hex);
    var originalBytes := fs.files[inputPath];
    procs.Launch(FfmpegArgs(settings.ffmpegPath, inputPath, outputPath));
    if run.returnCode == 0 || run.partialOutput {
      fs.Write(outputPath, run.outputBytes);
    }
    var convertedBytes := 0;
    if run.returnCode == 0 {
      convertedBytes := fs.files[outputPath];
    }
    r := MakeResult(inputPath, outputPath, run.returnCode, run.stderrText, originalBytes, convertedBytes, start, end);
  }
}
