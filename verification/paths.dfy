/** Paths as sequences of components, with the few pieces of Rust's
    `std::path` behaviour the playlist code relies on: `join` of a single
    name, `file_name`, `extension`, and the ASCII case-insensitive
    comparison of an extension with "json". */
module Paths {
  import opened Types

  /** A path as the list of its components (the leading root, if any, is
      implicit). Two paths are equal when their components are, which is how
      Rust compares paths. */
  type Path = seq<string>

  /** `PathBuf::join` of a name that holds no separator. Joining "" only adds
      a trailing separator, which leaves the components as they were. */
  function Join(p: Path, name: string): (r: Path)
    ensures name == "" ==> r == p
    ensures name != "" ==> |r| == |p| + 1 && r[..|p|] == p && r[|p|] == name
  {
    if name == "" then p else p + [name]
  }

  /** `Path::file_name`: the last component, unless there is none or it is "..". */
  function FileName(p: Path): Option<string>
  {
    if |p| == 0 || p[|p| - 1] == ".." then None else Some(p[|p| - 1])
  }

  /** The position of the last '.' in a name, if there is one. */
  function LastDot(name: string): (r: Option<nat>)
    ensures r.None? <==> '.' !in name
    ensures r.Some? ==> r.value < |name| && name[r.value] == '.'
    ensures r.Some? ==> forall j :: r.value < j < |name| ==> name[j] != '.'
  {
    if |name| == 0 then None
    else if name[|name| - 1] == '.' then Some(|name| - 1)
    else
      var r := LastDot(name[..|name| - 1]);
      assert name == name[..|name| - 1] + [name[|name| - 1]];
      r
  }

  /** `Path::extension`: the text after the last '.' of the file name, when
      that dot is not the name's first character. */
  function Extension(p: Path): Option<string>
  {
    match FileName(p)
    case None => None
    case Some(name) =>
      match LastDot(name)
      case None => None
      case Some(k) => if k == 0 then None else Some(name[k + 1..])
  }

  /** `u8::to_ascii_lowercase` lifted to characters. */
  function AsciiLower(c: char): char
  {
    if 'A' <= c <= 'Z' then (c as int + 32) as char else c
  }

  /** `str::eq_ignore_ascii_case`. */
  predicate EqIgnoreAsciiCase(a: string, b: string)
  {
    |a| == |b| && forall i :: 0 <= i < |a| ==> AsciiLower(a[i]) == AsciiLower(b[i])
  }

  /** The test write_playlist applies to the configured playlists location:
      does it name a file whose extension is "json" in any ASCII case? */
  predicate IsJsonFile(p: Path)
  {
    Extension(p).Some? && EqIgnoreAsciiCase(Extension(p).value, "json")
  }

  /** A reference reading of the same test on a single name: at least one
      character, then '.', then "json" in any ASCII case. */
  predicate HasJsonSuffix(name: string)
  {
    |name| > 5 && name[|name| - 5] == '.' && EqIgnoreAsciiCase(name[|name| - 4..], "json")
  }

  /** IsJsonFile holds exactly when the last component is not ".." and ends
      in a non-empty stem followed by ".json", ignoring ASCII case. */
  lemma IsJsonFileIff(p: Path)
    ensures IsJsonFile(p) <==> |p| > 0 && HasJsonSuffix(p[|p| - 1])
  {
  }
}
