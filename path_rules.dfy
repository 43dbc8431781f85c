/** The part of Node's `path` module that the builder relies on for the
    extension: `path.extname` on POSIX paths, followed by `.slice(1)`. */
module PathRules {
  import opened Values

  /** Drops every trailing '/' ("a/b//" becomes "a/b"). */
  function StripTrailingSlashes(p: string): (r: string)
    ensures r == [] || r[|r| - 1] != '/'
  {
    if p != [] && p[|p| - 1] == '/' then StripTrailingSlashes(p[..|p| - 1]) else p
  }

  /** The final segment of a path: everything after its last '/'. */
  function LastSegment(p: string): (r: string)
    ensures '/' !in r
  {
    if p == [] || p[|p| - 1] == '/' then [] else LastSegment(p[..|p| - 1]) + [p[|p| - 1]]
  }

  /** The index of the last '.' in `s`, if there is one. */
  function LastDot(s: string): (r: Option<nat>)
    ensures r.None? <==> '.' !in s
    ensures r.Some? ==> r.value < |s| && s[r.value] == '.' && '.' !in s[r.value + 1..]
  {
    if s == [] then None
    else if s[|s| - 1] == '.' then Some(|s| - 1)
    else LastDot(s[..|s| - 1])
  }

  /** extname of a final segment: the suffix from its last '.', or "" when it
      has no '.', when its last '.' is its first character (".bashrc"), or when
      it is "..". So "..a" gives ".a" and "..." gives ".". */
  function SegmentExtname(base: string): string {
    match LastDot(base)
    case None => ""
    case Some(d) => if d == 0 || base == ".." then "" else base[d..]
  }

  /** `path.extname(p)` (POSIX): trailing slashes are ignored and the rule above
      is applied to the final segment. */
  function Extname(p: string): string {
    SegmentExtname(LastSegment(StripTrailingSlashes(p)))
  }

  /** `path.extname(p).slice(1)`: the extension without its leading dot. */
  function ExtensionOf(p: string): string {
    var e := Extname(p);
    if e == "" then "" else e[1..]
  }

  /** The extname of a segment is "" or a suffix of it that starts with its last '.'. */
  lemma SegmentExtnameShape(base: string)
    ensures var e := SegmentExtname(base);
      |e| <= |base| && e == base[|base| - |e|..] &&
      (e == [] || (e[0] == '.' && '.' !in e[1..]))
  {
  }

  /** extname yields "" or a dot followed by neither '.' nor '/', taken from the
      end of the path's final segment. */
  lemma ExtnameShape(p: string)
    ensures var e := Extname(p);
      e == [] || (e[0] == '.' && '.' !in e[1..] && '/' !in e)
  {
  }

  /** The derived extension never contains a '.' or a '/'. */
  lemma ExtensionHasNoSeparators(p: string)
    ensures '.' !in ExtensionOf(p) && '/' !in ExtensionOf(p)
  {
  }

  lemma {:induction false} LastSegmentOfAppended(dir: string, base: string)
    requires dir == [] || dir[|dir| - 1] == '/'
    requires '/' !in base
    ensures LastSegment(dir + base) == base
    decreases |base|
  {
    var p := dir + base;
    if base == [] {
      assert p == dir;
    } else {
      var init := base[..|base| - 1];
      var last := base[|base| - 1];
      assert last in base;
      assert p[|p| - 1] == last;
      assert p[..|p| - 1] == dir + init;
      assert '/' !in init by {
        forall i | 0 <= i < |init| ensures init[i] != '/' {
          assert init[i] == base[i];
          assert base[i] in base;
        }
      }
      LastSegmentOfAppended(dir, init);
      assert LastSegment(p) == LastSegment(dir + init) + [last];
      assert init + [last] == base;
    }
  }

  /** The extname of a path inside a directory is that of its final segment. */
  lemma ExtnameInDirectory(dir: string, base: string)
    requires dir == [] || dir[|dir| - 1] == '/'
    requires base != [] && '/' !in base
    ensures Extname(dir + base) == SegmentExtname(base)
  {
    var p := dir + base;
    assert p[|p| - 1] == base[|base| - 1];
    assert StripTrailingSlashes(p) == p;
    LastSegmentOfAppended(dir, base);
  }

  lemma {:induction false} LastDotBeforePlainSuffix(name: string, ext: string)
    requires '.' !in ext
    ensures LastDot(name + "." + ext) == Some(|name|)
    decreases |ext|
  {
    var s := name + "." + ext;
    if ext != [] {
      assert s[..|s| - 1] == name + "." + ext[..|ext| - 1];
      LastDotBeforePlainSuffix(name, ext[..|ext| - 1]);
    }
  }

  lemma SegmentExtnameOfFileName(name: string, ext: string)
    requires name != [] && ext != []
    requires '.' !in ext
    ensures SegmentExtname(name + "." + ext) == "." + ext
  {
    var base := name + "." + ext;
    LastDotBeforePlainSuffix(name, ext);
    assert |base| >= 3;
    assert base != "..";
    assert base[|name|..] == "." + ext;
  }

  /** A file `name.ext` in a directory has extension `ext`, provided the name is
      not empty and neither part contains a '/' and `ext` has no '.'
      ("__mocks__/content/index.mdx" has extension "mdx"). */
  lemma ExtensionOfFileName(dir: string, name: string, ext: string)
    requires dir == [] || dir[|dir| - 1] == '/'
    requires name != [] && '/' !in name
    requires ext != [] && '.' !in ext && '/' !in ext
    ensures ExtensionOf(dir + name + "." + ext) == ext
  {
    var base := name + "." + ext;
    assert dir + name + "." + ext == dir + base;
    ExtnameInDirectory(dir, base);
    SegmentExtnameOfFileName(name, ext);
  }

  lemma SegmentExtnameOfDotName(name: string)
    requires '.' !in name
    ensures SegmentExtname("." + name) == ""
  {
  }

  /** A name that starts with its only dot (".bashrc") has no extension. */
  lemma DotFilesHaveNoExtension(dir: string, name: string)
    requires dir == [] || dir[|dir| - 1] == '/'
    requires '.' !in name && '/' !in name
    ensures ExtensionOf(dir + "." + name) == ""
  {
    var base := "." + name;
    assert dir + "." + name == dir + base;
    ExtnameInDirectory(dir, base);
    SegmentExtnameOfDotName(name);
  }

  /** The parent-directory name ".." has no extension. */
  lemma ParentDirectoryHasNoExtension(dir: string)
    requires dir == [] || dir[|dir| - 1] == '/'
    ensures ExtensionOf(dir + "..") == ""
  {
  }
}
