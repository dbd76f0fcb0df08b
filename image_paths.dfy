/** The progress-image lookup for one matched image: the image's stem, the names in the
    intermediates directory that the glob `<stem>.*` selects, and the paths reported. */
module ImagePaths {
  import opened Strings

  /** `os.path.basename` on POSIX paths: the text after the last `/`. */
  function Basename(path: string): (name: string)
    ensures Lacks(name, '/')
    ensures |name| <= |path| && path[|path| - |name|..] == name
    ensures |name| == |path| || path[|path| - |name| - 1] == '/'
  {
    AfterLast(path, '/')
  }

  /** `os.path.basename(image).split('.')[0]`: the image's file name up to its first dot. */
  function Stem(image: string): (stem: string)
    ensures IsPrefix(stem, Basename(image)) && Lacks(stem, '.') && Lacks(stem, '/')
    ensures |stem| == |Basename(image)| || Basename(image)[|stem|] == '.'
  {
    var name := Basename(image);
    var stem := name[..IndexOf(name, '.')];
    PrefixLacks(stem, name, '/');
    stem
  }

  /** `os.path.join(a, b)` on POSIX paths: an absolute `b` replaces `a`, otherwise a `/`
      separates them unless `a` is empty or already ends in one. */
  function Join(a: string, b: string): string
  {
    if b != [] && b[0] == '/' then b
    else if a == [] || a[|a| - 1] == '/' then a + b
    else a + "/" + b
  }

  /** `os.path.join(outdir, 'intermediates', name)`: the path reported for a progress image.
      It is `name` inside the `intermediates` directory of `outdir`: its file name is the
      directory entry's own name, and it lies under `outdir`. */
  function IntermediatePath(outdir: string, name: string): (path: string)
    ensures Lacks(name, '/') ==> Basename(path) == name && IsPrefix(outdir, path)
    ensures outdir != [] && outdir[|outdir| - 1] != '/' && Lacks(name, '/') ==>
      path == outdir + "/intermediates/" + name
    ensures (outdir == [] || outdir[|outdir| - 1] == '/') && Lacks(name, '/') ==>
      path == outdir + "intermediates/" + name
  {
    var dir := Join(outdir, "intermediates");
    assert IsPrefix(outdir, dir);
    if Lacks(name, '/') then JoinSeparated(dir, name); IntermediatesSpelled(outdir, name); Join(dir, name)
    else Join(dir, name)
  }

  /** The path of a bare name in `outdir`'s `intermediates` directory, spelled out. */
  lemma IntermediatesSpelled(outdir: string, name: string)
    requires Lacks(name, '/')
    ensures outdir != [] && outdir[|outdir| - 1] != '/' ==>
      Join(Join(outdir, "intermediates"), name) == outdir + "/intermediates/" + name
    ensures outdir == [] || outdir[|outdir| - 1] == '/' ==>
      Join(Join(outdir, "intermediates"), name) == outdir + "intermediates/" + name
  {
    var dir := Join(outdir, "intermediates");
    assert name == [] || name[0] != '/';
    assert dir[|dir| - 1] == 's';
    assert Join(dir, name) == dir + "/" + name;
  }

  /** Joining a non-empty directory that does not end in `/` with a bare file name gives a
      path under that directory whose basename is the file name. */
  lemma JoinSeparated(dir: string, name: string)
    requires dir != [] && dir[|dir| - 1] != '/' && Lacks(name, '/')
    ensures Basename(Join(dir, name)) == name && IsPrefix(dir, Join(dir, name))
  {
    var path := Join(dir, name);
    assert path == dir + ['/'] + name;
    AfterLastSplit(dir, '/', name);
    assert path[..|dir|] == dir;
  }

  /** The glob `<outdir>/intermediates/<stem>.*` over the directory `listing` (its entry
      names in enumeration order): every entry named `<stem>.` followed by anything,
      reported as `<outdir>/intermediates/<entry>`, in listing order. */
  function ProgressImages(outdir: string, stem: string, listing: seq<string>): (paths: seq<string>)
    ensures |paths| <= |listing|
  {
    if listing == [] then []
    else
      var here := if IsPrefix(stem + ".", listing[0]) then [IntermediatePath(outdir, listing[0])] else [];
      here + ProgressImages(outdir, stem, listing[1..])
  }

  /** The reported paths are exactly those of the entries the glob selects. */
  lemma {:induction false} ProgressImagesExactly(outdir: string, stem: string, listing: seq<string>, p: string)
    ensures p in ProgressImages(outdir, stem, listing) <==>
      exists n :: n in listing && IsPrefix(stem + ".", n) && p == IntermediatePath(outdir, n)
  {
    if listing != [] {
      ProgressImagesExactly(outdir, stem, listing[1..], p);
      if exists n :: n in listing && IsPrefix(stem + ".", n) && p == IntermediatePath(outdir, n) {
        var n :| n in listing && IsPrefix(stem + ".", n) && p == IntermediatePath(outdir, n);
        if n != listing[0] {
          assert n in listing[1..];
        }
      }
    }
  }
}
