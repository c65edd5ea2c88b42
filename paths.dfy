/**
 * File-name construction for the per-date data files (lib/paths.ts): the date text is
 * reduced to its digits and hyphens, and the file is a direct child of its data directory.
 */
module Paths {
  import opened Text

  /** The outcome of reading one data file: absent, present but unreadable, or its text. */
  datatype FileRead = Missing | Unreadable | Contents(text: string)

  /**
   * A file directly inside one of the data directories. `path.join(dir, name)` is kept as
   * the pair, since a `name` without '/' is never normalised into another directory.
   */
  datatype FilePath = FilePath(dir: DataDir, name: string)

  datatype DataDir = FuturesDir | ChatsDir | PositionsDir

  predicate SafeChar(c: char) {
    IsDigit(c) || c == '-'
  }

  /** `dateStr.replace(/[^0-9\-]/g, "")`. */
  function Sanitize(s: string): (r: string)
    ensures |r| <= |s|
    ensures forall i :: 0 <= i < |r| ==> SafeChar(r[i])
  {
    if s == [] then []
    else (if SafeChar(s[0]) then [s[0]] else []) + Sanitize(s[1..])
  }

  /** `futuresPathForDate(dateStr)`. */
  function FuturesPathForDate(date: string): FilePath {
    FilePath(FuturesDir, Sanitize(date) + ".txt")
  }

  /** `chatPathForDate(dateStr)`. */
  function ChatPathForDate(date: string): FilePath {
    FilePath(ChatsDir, Sanitize(date) + ".json")
  }

  /** `assetsPath()`. */
  function AssetsPath(): FilePath {
    FilePath(PositionsDir, "assets.json")
  }

  /** `s` is an order-preserving subsequence of `t`. */
  predicate Subsequence(s: string, t: string)
    decreases |t|
  {
    if s == [] then true
    else if t == [] then false
    else if s[0] == t[0] then Subsequence(s[1..], t[1..])
    else Subsequence(s, t[1..])
  }

  /** The stem keeps every safe character of the input, in order and as often as it occurs, and nothing else. */
  lemma SanitizeKeepsSafeInOrder(s: string)
    ensures Subsequence(Sanitize(s), s)
    ensures forall c :: SafeChar(c) ==> multiset(Sanitize(s))[c] == multiset(s)[c]
    ensures forall c :: !SafeChar(c) ==> multiset(Sanitize(s))[c] == 0
  {
    SanitizeInOrder(s);
    SanitizeCounts(s);
  }

  lemma {:induction false} SanitizeInOrder(s: string)
    ensures Subsequence(Sanitize(s), s)
  {
    if s != [] {
      SanitizeInOrder(s[1..]);
      if SafeChar(s[0]) {
        assert Sanitize(s) == [s[0]] + Sanitize(s[1..]);
        assert Sanitize(s)[1..] == Sanitize(s[1..]);
      } else {
        assert Sanitize(s) == Sanitize(s[1..]);
        assert Sanitize(s) != [] ==> Sanitize(s)[0] != s[0];
      }
    }
  }

  lemma {:induction false} SanitizeCounts(s: string)
    ensures forall c :: SafeChar(c) ==> multiset(Sanitize(s))[c] == multiset(s)[c]
    ensures forall c :: !SafeChar(c) ==> multiset(Sanitize(s))[c] == 0
  {
    if s != [] {
      SanitizeCounts(s[1..]);
      assert s == [s[0]] + s[1..];
      assert multiset(s) == multiset([s[0]]) + multiset(s[1..]);
      var head := if SafeChar(s[0]) then [s[0]] else [];
      assert Sanitize(s) == head + Sanitize(s[1..]);
      assert multiset(Sanitize(s)) == multiset(head) + multiset(Sanitize(s[1..]));
    }
  }

  /** Sanitising distributes over concatenation. */
  lemma {:induction false} SanitizeConcat(a: string, b: string)
    ensures Sanitize(a + b) == Sanitize(a) + Sanitize(b)
  {
    if a != [] {
      assert (a + b)[1..] == a[1..] + b;
      SanitizeConcat(a[1..], b);
    } else {
      assert a + b == b;
    }
  }

  /** A date made only of digits and hyphens (such as "2025-11-13") is left as it is, and only such a date. */
  lemma {:induction false} SanitizeFixedPoint(s: string)
    ensures Sanitize(s) == s <==> forall i :: 0 <= i < |s| ==> SafeChar(s[i])
  {
    if forall i :: 0 <= i < |s| ==> SafeChar(s[i]) {
      if s != [] {
        SanitizeFixedPoint(s[1..]);
        assert forall i :: 0 <= i < |s[1..]| ==> SafeChar(s[1..][i]) by {
          forall i | 0 <= i < |s[1..]| ensures SafeChar(s[1..][i]) { assert s[1..][i] == s[i + 1]; }
        }
      }
    }
  }

  /** Sanitising is idempotent. */
  lemma SanitizeIdempotent(s: string)
    ensures Sanitize(Sanitize(s)) == Sanitize(s)
  {
    SanitizeFixedPoint(Sanitize(s));
  }

  /**
   * Both helpers use the same stem, which holds no '/' and no '.', so each file is a direct
   * child of its directory named stem + extension (".txt" or ".json"; just the extension for an empty stem).
   */
  lemma PathsShareStem(date: string)
    ensures var f, c := FuturesPathForDate(date), ChatPathForDate(date);
      f.dir == FuturesDir && c.dir == ChatsDir &&
      |f.name| >= 4 && |c.name| >= 5 &&
      f.name[|f.name| - 4..] == ".txt" && c.name[|c.name| - 5..] == ".json" &&
      f.name[..|f.name| - 4] == c.name[..|c.name| - 5] == Sanitize(date) &&
      '/' !in Sanitize(date) && '.' !in Sanitize(date)
  {
    var stem := Sanitize(date);
    assert forall i :: 0 <= i < |stem| ==> stem[i] != '/' && stem[i] != '.';
    assert (stem + ".txt")[..|stem|] == stem;
    assert (stem + ".json")[..|stem|] == stem;
  }

  /** `f.replace(/\.txt$/, "")` in the futures listing (routes/futures.ts). */
  function ListedDate(fileName: string): string {
    if |fileName| >= 4 && fileName[|fileName| - 4..] == ".txt" then fileName[..|fileName| - 4] else fileName
  }

  /** Listing the futures directory gives back the sanitised date of every day file. */
  lemma ListingRecoversDate(date: string)
    ensures ListedDate(FuturesPathForDate(date).name) == Sanitize(date)
  {
    PathsShareStem(date);
  }
}
