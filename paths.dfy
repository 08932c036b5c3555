/**
 * POSIX path operations from Python's `os.path` and `pathlib` that the bot
 * uses to name its temporary files and its replies.
 */
module Paths {
  import opened Strings

  /** `os.path.join(a, b)`: an absolute `b` replaces `a`, otherwise one '/' separates them. */
  function Join(a: string, b: string): (r: string)
    ensures EndsWith(r, b)
  {
    if |b| > 0 && b[0] == '/' then b
    else if a == [] || a[|a| - 1] == '/' then a + b
    else a + "/" + b
  }

  /** `os.path.basename(p)`: everything after the last '/'. */
  function BaseName(p: string): (r: string)
    ensures forall i :: 0 <= i < |r| ==> r[i] != '/'
    ensures |r| <= |p| && r == p[|p| - |r|..]
  {
    p[RFind(p, '/') + 1..]
  }

  /** The base name starts right after the last '/', or is the whole path when it has none. */
  lemma BaseNameIsTail(p: string)
    ensures var r := BaseName(p); |r| < |p| ==> p[|p| - |r| - 1] == '/'
    ensures var r := BaseName(p); |r| == |p| ==> '/' !in p
  {
  }

  /** Joining a directory with a name that has no '/' gives a path whose base name is that name. */
  lemma BaseNameOfJoin(dir: string, name: string)
    requires '/' !in name
    ensures BaseName(Join(dir, name)) == name
  {
    var head := if dir == [] || dir[|dir| - 1] == '/' then dir else dir + "/";
    assert Join(dir, name) == head + name;
    RFindAppend(head, name, '/');
    assert head == [] || head[|head| - 1] == '/';
  }

  /** `pathlib.PurePath(p).stem`: the base name without its last suffix, where a
      suffix is a final '.' part that neither starts the name nor ends it. */
  function Stem(p: string): (r: string)
    ensures forall i :: 0 <= i < |r| ==> r[i] != '/'
  {
    var name := BaseName(p);
    var i := RFind(name, '.');
    if 0 < i < |name| - 1 then name[..i] else name
  }

  /** The stem drops a suffix that follows a non-empty start of the name. */
  lemma StemOfName(p: string, base: string, ext: string)
    requires BaseName(p) == base + "." + ext
    requires |base| > 0 && |ext| > 0 && '.' !in ext
    ensures Stem(p) == base
  {
    var name := BaseName(p);
    assert name == (base + ".") + ext;
    RFindAppend(base + ".", ext, '.');
    assert RFind(name, '.') == |base|;
    assert name[..|base|] == base;
  }

  /** True when every character of `p` from index `lo` up to `hi` is '.'. */
  predicate DotsOnly(p: string, lo: int, hi: int) {
    forall k :: lo <= k < hi && 0 <= k < |p| ==> p[k] == '.'
  }

  /** `os.path.splitext(p)[0]`: `p` without the extension of its last component; the
      extension starts at the last '.', unless only dots precede it in that component. */
  function SplitExtRoot(p: string): (r: string)
    ensures |r| <= |p| && r == p[..|r|]
    ensures |r| < |p| ==> p[|r|] == '.'
    ensures |r| < |p| ==> forall k :: |r| < k < |p| ==> p[k] != '.' && p[k] != '/'
  {
    var sep := RFind(p, '/');
    var dot := RFind(p, '.');
    if dot > sep && !DotsOnly(p, sep + 1, dot) then
      p[..dot]
    else
      p
  }

  /** A file name with a real last extension loses exactly that extension. */
  lemma SplitExtRootOfExtension(base: string, ext: string)
    requires '/' !in base && '/' !in ext && '.' !in ext
    requires exists k :: 0 <= k < |base| && base[k] != '.'
    ensures SplitExtRoot(base + "." + ext) == base
  {
    var p := base + "." + ext;
    assert p == base + ("." + ext);
    RFindAppend(base, "." + ext, '/');
    assert RFind(base, '/') == -1;
    RFindAppend(base + ".", ext, '.');
    assert RFind(p, '.') == |base|;
    var k :| 0 <= k < |base| && base[k] != '.';
    assert p[k] == base[k];
    assert p[..|base|] == base;
  }
}
