/**
 * Temporary files: fresh names in the working directory and best-effort
 * removal of any number of paths.
 */
module TempFile {
  import opened Strings
  import opened Paths

  /** The file name `<hex>.<extension without its leading dots>`; `hex` is the
      random `uuid4().hex`, taken here as an input. */
  function TempName(hex: string, extension: string): string {
    hex + "." + LStrip(extension, '.')
  }

  /** The fresh temporary path for a file with the given extension. */
  function TempPath(tempDir: string, hex: string, extension: string): string {
    Join(tempDir, TempName(hex, extension))
  }

  /** `k` dots. */
  function Dots(k: nat): (s: string)
    ensures |s| == k && forall i :: 0 <= i < k ==> s[i] == '.'
  {
    seq(k, _ => '.')
  }

  /** Leading dots of the extension make no difference: "flac" and ".flac" give the same path. */
  lemma {:induction false} TempPathIgnoresLeadingDots(tempDir: string, hex: string, k: nat, extension: string)
    ensures TempPath(tempDir, hex, Dots(k) + extension) == TempPath(tempDir, hex, extension)
  {
    if k == 0 {
      assert Dots(k) + extension == extension;
    } else {
      assert (Dots(k) + extension)[1..] == Dots(k - 1) + extension;
      TempPathIgnoresLeadingDots(tempDir, hex, k - 1, extension);
    }
  }

  /** A temporary file name never contains a directory separator. */
  lemma TempNameHasNoSlash(hex: string, extension: string)
    requires IsUuidHex(hex) && '/' !in extension
    ensures '/' !in TempName(hex, extension)
  {
    var ext := LStrip(extension, '.');
    var name := TempName(hex, extension);
    var d := |extension| - |ext|;
    assert ext == extension[d..];
    forall i | 0 <= i < |name| ensures name[i] != '/' {
      if i < |hex| {
        assert name[i] == hex[i] && IsHexDigit(hex[i]);
      } else if i > |hex| {
        assert name[i] == ext[i - |hex| - 1] == extension[d + i - |hex| - 1];
      }
    }
  }

  /** The file part of a temporary path is made of the random hex and the extension only:
      nothing a caller supplies besides the extension reaches it, and it sits directly in
      the working directory. */
  lemma TempPathBaseName(tempDir: string, hex: string, extension: string)
    requires IsUuidHex(hex) && '/' !in extension
    ensures BaseName(TempPath(tempDir, hex, extension)) == hex + "." + LStrip(extension, '.')
  {
    TempNameHasNoSlash(hex, extension);
    BaseNameOfJoin(tempDir, TempName(hex, extension));
  }

  /** The stem of a staged ".flac" input is its random hex. */
  lemma TempPathStem(tempDir: string, hex: string)
    requires IsUuidHex(hex)
    ensures Stem(TempPath(tempDir, hex, "flac")) == hex
  {
    var path := TempPath(tempDir, hex, "flac");
    TempPathBaseName(tempDir, hex, "flac");
    assert LStrip("flac", '.') == "flac";
    assert BaseName(path) == hex + "." + "flac";
    assert '.' !in "flac";
    assert |hex| == 32;
    StemOfName(path, hex, "flac");
  }

  /** One `os.remove(p)` whose `OSError` is swallowed: an absent path is skipped. */
  function AfterRemove(files: map<string, nat>, p: string): map<string, nat> {
    if p in files then files - {p} else files
  }

  /** The files left after `cleanup(paths...)`, path by path, in order. */
  function AfterCleanup(files: map<string, nat>, paths: seq<string>): map<string, nat> {
    if paths == [] then files
    else AfterRemove(AfterCleanup(files, paths[..|paths| - 1]), paths[|paths| - 1])
  }

  /** Cleanup removes exactly the given paths, whatever their order, repetitions or absence. */
  lemma {:induction false} AfterCleanupIsDifference(files: map<string, nat>, paths: seq<string>)
    ensures AfterCleanup(files, paths) == files - (set p | p in paths)
  {
    if paths != [] {
      var init := paths[..|paths| - 1];
      AfterCleanupIsDifference(files, init);
      assert (set p | p in paths) == (set p | p in init) + {paths[|paths| - 1]} by {
        assert paths == init + [paths[|paths| - 1]];
      }
    }
  }

  /** Removing two paths just written (the second one possibly not) leaves the file system
      as it was before, without those two paths. */
  lemma CleanupOfWrittenPair(files: map<string, nat>, a: string, sa: nat, b: string, sb: nat, wroteB: bool)
    ensures var written := if wroteB then files[a := sa][b := sb] else files[a := sa];
            written - (set p | p in [a, b]) == files - (set p | p in [a, b])
  {
    assert (set p | p in [a, b]) == {a, b};
  }

  /** After cleanup none of the given paths exists. */
  lemma CleanupRemovesAll(files: map<string, nat>, paths: seq<string>, p: string)
    requires p in paths
    ensures p !in AfterCleanup(files, paths)
  {
    AfterCleanupIsDifference(files, paths);
  }

  /** Files not passed to cleanup keep their presence and their contents. */
  lemma CleanupLeavesOthers(files: map<string, nat>, paths: seq<string>, q: string)
    requires q !in paths
    ensures q in AfterCleanup(files, paths) <==> q in files
    ensures q in files ==> AfterCleanup(files, paths)[q] == files[q]
  {
    AfterCleanupIsDifference(files, paths);
  }

  /** Paths that do not exist are skipped: cleaning only absent paths changes nothing. */
  lemma CleanupSkipsAbsent(files: map<string, nat>, paths: seq<string>)
    requires forall p :: p in paths ==> p !in files
    ensures AfterCleanup(files, paths) == files
  {
    AfterCleanupIsDifference(files, paths);
  }

  /** Cleaning the same paths twice is the same as cleaning them once. */
  lemma CleanupIdempotent(files: map<string, nat>, paths: seq<string>)
    ensures AfterCleanup(AfterCleanup(files, paths), paths) == AfterCleanup(files, paths)
  {
    AfterCleanupIsDifference(files, paths);
    AfterCleanupIsDifference(AfterCleanup(files, paths), paths);
  }

  /** The part of the file system the bot touches: each existing path with its size in bytes,
      and every path handed to `cleanup` so far, in order. */
  class FileSystem {
    var files: map<string, nat>
    var removed: seq<string>

    constructor (files: map<string, nat>)
      ensures this.files == files && removed == []
    {
      this.files := files;
      removed := [];
    }

    /** A collaborator (the download, the transcoder) writes `size` bytes to `p`. */
    method Write(p: string, size: nat)
      modifies this
      ensures files == old(files)[p := size] && removed == old(removed)
    {
      files := files[p := size];
    }

    /** `cleanup(*paths)`: try to remove each path, silently skipping absent ones. */
    method Cleanup(paths: seq<string>)
      modifies this
      ensures files == old(files) - (set p | p in paths)
      ensures removed == old(removed) + paths
    {
      for i := 0 to |paths|
        invariant files == AfterCleanup(old(files), paths[..i])
        invariant removed == old(removed) + paths[..i]
      {
        assert paths[..i + 1][..i] == paths[..i];
        if paths[i] in files {
          files := files - {paths[i]};
        }
        removed := removed + [paths[i]];
      }
      assert paths[..|paths|] == paths;
      AfterCleanupIsDifference(old(files), paths);
    }
  }
}
