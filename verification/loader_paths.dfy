/**
 The string helpers of src/js/Tools/Loader.js: the file extension of a
 resource URL and the loader it selects, and the resource name derived from
 a module path. Strings are sequences of UTF-16 code units as `char`.
 */
module LoaderPaths {
  import opened Wrappers

  /** `s.lastIndexOf(c)`: the last position holding `c`, or -1. */
  function LastIndexOf(s: string, c: char): (i: int)
    ensures -1 <= i < |s|
    ensures i == -1 <==> c !in s
    ensures i >= 0 ==> s[i] == c && c !in s[i + 1..]
  {
    if s == [] then -1
    else if s[|s| - 1] == c then |s| - 1
    else
      var i := LastIndexOf(s[..|s| - 1], c);
      assert s[..|s| - 1] + [s[|s| - 1]] == s;
      if i >= 0 then assert s[i + 1..] == s[..|s| - 1][i + 1..] + [s[|s| - 1]]; i else i
  }

  /** The extension of `src`: the text after its last `.`; when there is no
      `.`, or nothing follows the last one, the whole of `src` (the `||`
      fallback of an empty substring). */
  function Extension(src: string): (e: string)
    ensures e == [] <==> src == []
    ensures '.' !in src ==> e == src
  {
    var i := LastIndexOf(src, '.');
    var tail := src[i + 1..];
    if tail == [] then src else tail
  }

  /** A source ending in `.` has an empty substring after its last dot, so
      the fallback returns the whole source. */
  lemma ExtensionTrailingDot(src: string)
    requires src != [] && src[|src| - 1] == '.'
    ensures Extension(src) == src
  {
  }

  /** A non-empty extension with no `.` is recovered from any name it is
      appended to. */
  lemma ExtensionOfJoin(stem: string, ext: string)
    requires ext != [] && '.' !in ext
    ensures Extension(stem + "." + ext) == ext
  {
    var src := stem + "." + ext;
    var i := LastIndexOf(src, '.');
    assert src[|stem|] == '.';
    assert src[|stem| + 1..] == ext;
  }

  /** The loaders of `setLoaders`, in table order. */
  datatype LoaderKind = Gltf | Fbx | Texture | Font | Sound

  const LoaderTable: seq<(LoaderKind, seq<string>)> := [
    (Gltf, ["gltf", "glb"]),
    (Fbx, ["fbx"]),
    (Texture, ["png", "jpg", "jpeg"]),
    (Font, ["json"]),
    (Sound, ["mp3", "ogg", "wav"])
  ]

  /** `loaders.find(...)`: the first entry whose file types contain `ext`. */
  function FindIn(table: seq<(LoaderKind, seq<string>)>, ext: string): (r: Option<nat>)
    ensures r.Some? ==> r.value < |table| && ext in table[r.value].1
    ensures r.Some? ==> forall j :: 0 <= j < r.value ==> ext !in table[j].1
    ensures r.None? ==> forall j :: 0 <= j < |table| ==> ext !in table[j].1
  {
    if table == [] then None
    else if ext in table[0].1 then Some(0)
    else match FindIn(table[1..], ext)
      case None => None
      case Some(k) => Some(k + 1)
  }

  function FindLoader(ext: string): Option<LoaderKind>
  {
    match FindIn(LoaderTable, ext)
    case None => None
    case Some(k) => Some(LoaderTable[k].0)
  }

  /** The dispatch the table encodes, written out per file type. */
  function LoaderFor(ext: string): Option<LoaderKind>
  {
    if ext == "gltf" || ext == "glb" then Some(Gltf)
    else if ext == "fbx" then Some(Fbx)
    else if ext == "png" || ext == "jpg" || ext == "jpeg" then Some(Texture)
    else if ext == "json" then Some(Font)
    else if ext == "mp3" || ext == "ogg" || ext == "wav" then Some(Sound)
    else None
  }

  lemma FindLoaderAgrees(ext: string)
    ensures FindLoader(ext) == LoaderFor(ext)
  {
    var t := LoaderTable;
    if ext in t[0].1 {
      assert FindIn(t, ext) == Some(0);
    } else if ext in t[1].1 {
      assert FindIn(t, ext) == Some(1);
    } else if ext in t[2].1 {
      assert FindIn(t, ext) == Some(2);
    } else if ext in t[3].1 {
      assert FindIn(t, ext) == Some(3);
    } else if ext in t[4].1 {
      assert FindIn(t, ext) == Some(4);
    } else {
      assert FindIn(t, ext) == None;
    }
  }

  /** `sep` occurs in `s` at position `i`. */
  predicate At(s: string, i: nat, sep: string)
  {
    i + |sep| <= |s| && s[i..i + |sep|] == sep
  }

  /** `s.indexOf(sep, from)`: the first occurrence of `sep` at or after `from`. */
  function IndexOf(s: string, sep: string, from: nat): (r: Option<nat>)
    requires from <= |s|
    ensures r.Some? ==> from <= r.value <= |s| && At(s, r.value, sep)
    ensures r.Some? ==> forall j :: from <= j < r.value ==> !At(s, j, sep)
    ensures r.None? ==> forall j :: from <= j <= |s| ==> !At(s, j, sep)
    decreases |s| - from
  {
    if At(s, from, sep) then Some(from)
    else if from == |s| then None
    else IndexOf(s, sep, from + 1)
  }

  /** `s.split(sep)[1]` for a non-empty `sep`: the text between the first
      and the second occurrence (or the end); `None` stands for the
      `undefined` of a path without `sep`, on which the next call throws. */
  function SplitSecond(s: string, sep: string): (r: Option<string>)
    requires |sep| > 0
  {
    match IndexOf(s, sep, 0)
    case None => None
    case Some(i) =>
      var from := i + |sep|;
      match IndexOf(s, sep, from)
      case None => Some(s[from..])
      case Some(j) => Some(s[from..j])
  }

  /** `s.split(c)[0]`: the text before the first `c`, or all of `s`. */
  function BeforeFirst(s: string, c: char): (r: string)
    ensures c !in r
    ensures c !in s ==> r == s
    ensures |r| <= |s| && r == s[..|r|]
    ensures |r| < |s| ==> s[|r|] == c
  {
    if s == [] || s[0] == c then []
    else [s[0]] + BeforeFirst(s[1..], c)
  }

  /** `toLowerCase` on ASCII letters. */
  function LowerChar(c: char): (d: char)
  {
    if 'A' <= c <= 'Z' then (c as int + 32) as char else c
  }

  function Lower(s: string): (r: string)
    ensures |r| == |s|
    ensures forall i :: 0 <= i < |s| ==> r[i] == LowerChar(s[i])
  {
    if s == [] then [] else [LowerChar(s[0])] + Lower(s[1..])
  }

  /** The resource name `setRessourcesList` derives from a module path: the
      segment after `folder` (such as `/models/`), cut at its first `.`,
      lower-cased. */
  function ResourceName(path: string, folder: string): (r: Option<string>)
    requires |folder| > 0
    ensures r.Some? <==> exists i :: 0 <= i <= |path| && At(path, i, folder)
    ensures r.Some? ==> '.' !in r.value && forall k :: 0 <= k < |r.value| ==> !('A' <= r.value[k] <= 'Z')
  {
    match SplitSecond(path, folder)
    case None => None
    case Some(segment) => Some(Lower(BeforeFirst(segment, '.')))
  }

  /** When `folder` first occurs at `at` and never again from the end of
      that occurrence on, the second piece of the split is the rest of the
      path. */
  lemma SplitSecondOnce(path: string, folder: string, at: nat)
    requires |folder| > 0 && At(path, at, folder)
    requires forall j :: 0 <= j < at ==> !At(path, j, folder)
    requires forall j :: at + |folder| <= j <= |path| ==> !At(path, j, folder)
    ensures SplitSecond(path, folder) == Some(path[at + |folder|..])
  {
    assert IndexOf(path, folder, 0) == Some(at);
  }

  /** A path whose single `folder` occurrence is followed by `stem . ext`,
      with no `.` in the stem, names the lower-cased stem. */
  lemma ResourceNameOfPath(path: string, folder: string, at: nat, stem: string, ext: string)
    requires |folder| > 0 && At(path, at, folder)
    requires forall j :: 0 <= j < at ==> !At(path, j, folder)
    requires forall j :: at + |folder| <= j <= |path| ==> !At(path, j, folder)
    requires path[at + |folder|..] == stem + "." + ext && '.' !in stem
    ensures ResourceName(path, folder) == Some(Lower(stem))
  {
    SplitSecondOnce(path, folder, at);
    BeforeFirstOfJoin(stem, ext);
  }

  lemma {:induction false} BeforeFirstOfJoin(stem: string, ext: string)
    requires '.' !in stem
    ensures BeforeFirst(stem + "." + ext, '.') == stem
  {
    var s := stem + "." + ext;
    var r := BeforeFirst(s, '.');
    assert s[|stem|] == '.';
  }
}
