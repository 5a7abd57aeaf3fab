/** The date-keyed layout: a date string is split on '-' and its playlist
    lives at `<playlists>/<d[0]>/<d[1]>/<date>.json`. */
module Layout {
  import opened Paths

  /** `str::split('-')` collected into a vector: the pieces between the
      dashes, in order, always at least one. */
  function Split(s: string): (parts: seq<string>)
    ensures |parts| >= 1
    ensures '-' in s <==> |parts| >= 2
    ensures forall i :: 0 <= i < |parts| ==> '-' !in parts[i]
  {
    if |s| == 0 then [""]
    else
      var rest := Split(s[1..]);
      if s[0] == '-' then [""] + rest
      else [[s[0]] + rest[0]] + rest[1..]
  }

  /** The inverse of Split: the pieces glued back together with '-'. */
  function JoinParts(parts: seq<string>): string
    requires |parts| >= 1
  {
    if |parts| == 1 then parts[0] else parts[0] + "-" + JoinParts(parts[1..])
  }

  /** Splitting loses nothing: gluing the pieces back gives the date again. */
  lemma {:induction false} SplitJoinRoundTrip(s: string)
    ensures JoinParts(Split(s)) == s
  {
    if |s| > 0 {
      var rest := Split(s[1..]);
      SplitJoinRoundTrip(s[1..]);
      if s[0] == '-' {
        assert s == "-" + s[1..];
      } else if |rest| == 1 {
        assert s == [s[0]] + s[1..];
      } else {
        var parts := Split(s);
        assert parts[1..] == rest[1..];
        assert JoinParts(rest) == rest[0] + "-" + JoinParts(rest[1..]);
        assert s == [s[0]] + s[1..];
      }
    }
  }

  /** A name without dashes is a single piece. */
  lemma {:induction false} SplitNoDash(a: string)
    requires '-' !in a
    ensures Split(a) == [a]
  {
    if |a| > 0 {
      SplitNoDash(a[1..]);
      assert a == [a[0]] + a[1..];
    }
  }

  /** Splitting `a-b` where a holds no dash yields a, then the pieces of b. */
  lemma {:induction false} SplitAfterFirstDash(a: string, b: string)
    requires '-' !in a
    ensures Split(a + "-" + b) == [a] + Split(b)
  {
    if |a| == 0 {
      assert a + "-" + b == "-" + b;
      assert ("-" + b)[1..] == b;
    } else {
      SplitAfterFirstDash(a[1..], b);
      var s := a + "-" + b;
      assert s[0] == a[0];
      assert s[1..] == a[1..] + "-" + b;
      assert a == [a[0]] + a[1..];
    }
  }

  /** Gluing dash-free pieces and splitting again gives the pieces back. */
  lemma {:induction false} JoinSplitRoundTrip(parts: seq<string>)
    requires |parts| >= 1
    requires forall i :: 0 <= i < |parts| ==> '-' !in parts[i]
    ensures Split(JoinParts(parts)) == parts
  {
    if |parts| == 1 {
      SplitNoDash(parts[0]);
    } else {
      JoinSplitRoundTrip(parts[1..]);
      SplitAfterFirstDash(parts[0], JoinParts(parts[1..]));
      assert parts == [parts[0]] + parts[1..];
    }
  }

  /** What the layout code needs of a date to run as modelled: a '-' (so
      that `d[1]` exists rather than panicking), no '.' (so that
      `with_extension("json")` simply appends) and no '/' (so that each
      `join` adds at most one component). */
  predicate ValidDate(date: string)
  {
    '-' in date && '.' !in date && '/' !in date
  }

  /** The file for a date under the playlists root:
      `root.join(d[0]).join(d[1]).join(date).with_extension("json")`. */
  function DatePath(root: Path, date: string): (p: Path)
    requires ValidDate(date)
    ensures |root| < |p| <= |root| + 3
    ensures p[..|root|] == root
    ensures p[|p| - 1] == date + ".json"
  {
    var d := Split(date);
    Join(Join(Join(root, d[0]), d[1]), date + ".json")
  }

  /** A dash-free, dot-free, slash-free piece of a date. */
  predicate DatePiece(s: string)
  {
    '-' !in s && '.' !in s && '/' !in s
  }

  /** A character absent from both halves is absent from their concatenation. */
  lemma NotInConcat(a: string, b: string, c: char)
    requires c !in a && c !in b
    ensures c !in a + b
  {
  }

  /** The documented convention `root/YYYY/MM/YYYY-MM-DD.json` for a date
      made of three non-empty pieces. */
  lemma CanonicalLayout(root: Path, y: string, m: string, d: string)
    requires DatePiece(y) && DatePiece(m) && DatePiece(d)
    requires y != "" && m != ""
    ensures ValidDate(y + "-" + m + "-" + d)
    ensures DatePath(root, y + "-" + m + "-" + d) == root + [y, m, y + "-" + m + "-" + d + ".json"]
  {
    var date := y + "-" + m + "-" + d;
    NotInConcat(y, "-", '.');
    NotInConcat(y + "-", m, '.');
    NotInConcat(y + "-" + m, "-", '.');
    NotInConcat(y + "-" + m + "-", d, '.');
    NotInConcat(y, "-", '/');
    NotInConcat(y + "-", m, '/');
    NotInConcat(y + "-" + m, "-", '/');
    NotInConcat(y + "-" + m + "-", d, '/');
    assert date[|y|] == '-';
    SplitNoDash(d);
    SplitAfterFirstDash(m, d);
    assert date == y + "-" + (m + "-" + d);
    SplitAfterFirstDash(y, m + "-" + d);
    assert Split(date) == [y, m, d];
  }

  /** The shape `root/d[0]/d[1]/<date>.json` for any date, with any number
      of pieces, whose first two pieces are non-empty. */
  lemma LayoutByFirstTwoPieces(root: Path, date: string)
    requires ValidDate(date)
    requires Split(date)[0] != "" && Split(date)[1] != ""
    ensures DatePath(root, date) == root + [Split(date)[0], Split(date)[1], date + ".json"]
  {
  }

  /** A year-month date `Y-M` with non-empty pieces: `root/Y/M/Y-M.json`. */
  lemma YearMonthLayout(root: Path, y: string, m: string)
    requires DatePiece(y) && DatePiece(m)
    requires y != "" && m != ""
    ensures ValidDate(y + "-" + m)
    ensures DatePath(root, y + "-" + m) == root + [y, m, y + "-" + m + ".json"]
  {
    var date := y + "-" + m;
    NotInConcat(y, "-", '.');
    NotInConcat(y + "-", m, '.');
    NotInConcat(y, "-", '/');
    NotInConcat(y + "-", m, '/');
    assert date[|y|] == '-';
    SplitNoDash(m);
    SplitAfterFirstDash(y, m);
    assert Split(date) == [y, m];
  }

  /** Different dates never share a file: the layout is injective. */
  lemma DatePathInjective(root: Path, a: string, b: string)
    requires ValidDate(a) && ValidDate(b)
    requires DatePath(root, a) == DatePath(root, b)
    ensures a == b
  {
    var p := DatePath(root, a);
    assert a + ".json" == b + ".json";
    assert |a| == |b|;
    assert a == (a + ".json")[..|a|];
    assert b == (b + ".json")[..|b|];
  }

  /** The file a date maps to passes write_playlist's own "is this a JSON
      file" test, and is never the playlists root itself. */
  lemma DatePathIsJsonFile(root: Path, date: string)
    requires ValidDate(date)
    ensures IsJsonFile(DatePath(root, date))
    ensures DatePath(root, date) != root
  {
    var p := DatePath(root, date);
    var name := date + ".json";
    assert p[|p| - 1] == name;
    assert name[|name| - 5] == '.';
    assert name[|name| - 4..] == "json";
    IsJsonFileIff(p);
  }
}
