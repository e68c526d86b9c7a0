/** Substring search with a border table, and replacement in place. */
module StringSearch {
  import opened SqlValues

  // ---------- search ----------

  /** The first `k` characters of `p[..i]` are also its last `k`. */
  predicate Border(p: string, i: nat, k: nat)
    requires i <= |p|
  {
    k < i && p[..k] == p[i - k..i]
  }

  /** `b` is the longest proper border of `p[..i]`; minus one stands before the first character. */
  ghost predicate Longest(p: string, i: nat, b: int)
    requires i <= |p|
  {
    if i == 0 then b == -1
    else 0 <= b && Border(p, i, b) && forall k: nat | Border(p, i, k) :: k <= b
  }

  /** A border of a border is a border, and a shorter border of the whole is a border of the longer one. */
  lemma BorderInside(p: string, i: nat, j: nat, k: nat)
    requires i <= |p| && Border(p, i, j) && k < j
    ensures Border(p, i, k) <==> Border(p, j, k)
  {
    assert p[i - k..i] == p[i - j..i][j - k..] && p[j - k..j] == p[..j][j - k..];
  }

  /** A border of a prefix extended by one character, without that character. */
  lemma BorderShrinks(p: string, i: nat, k: nat)
    requires i < |p| && 0 < k
    ensures Border(p, i + 1, k) <==> (k <= i && Border(p, i, k - 1) && p[i] == p[k - 1])
  {
    if k <= i {
      assert p[..k] == p[..k - 1] + [p[k - 1]];
      assert p[i + 1 - k..i + 1] == p[i - (k - 1)..i] + [p[i]];
    }
  }

  /** Everything longer than `j + 1` has been ruled out as a border of the first `n` characters. */
  ghost predicate RuledOut(p: string, n: nat, j: int)
    requires n <= |p|
  {
    forall k: nat | Border(p, n, k) :: k <= j + 1
  }

  ghost predicate Table(p: string, next: seq<int>, n: nat)
    requires n <= |p|
  {
    n <= |next| && forall i: nat | i < n :: Longest(p, i, next[i])
  }

  /** A mismatch leaves the next shorter border to try. */
  lemma Mismatch(p: string, next: seq<int>, i: nat, j: nat)
    requires 0 < i < |p| && Border(p, i, j) && RuledOut(p, i + 1, j) && Table(p, next, i) && p[i] != p[j]
    ensures RuledOut(p, i + 1, next[j]) && -1 <= next[j] < j && (0 <= next[j] ==> Border(p, i, next[j]))
  {
    assert Longest(p, j, next[j]);
    if 0 <= next[j] {
      BorderInside(p, i, j, next[j]);
    }
    var n := i + 1;
    forall k: nat | Border(p, n, k) ensures k <= next[j] + 1 {
      if 0 < k {
        BorderShrinks(p, i, k);
        if k - 1 < j {
          BorderInside(p, i, j, k - 1);
        }
      }
    }
  }

  /** A match gives the longest border of the next prefix. */
  lemma Match(p: string, i: nat, j: int)
    requires i < |p| && RuledOut(p, i + 1, j)
    requires (if i == 0 then j == -1 else -1 <= j < i && (0 <= j ==> Border(p, i, j) && p[i] == p[j]))
    ensures Longest(p, i + 1, j + 1)
  {
    if 0 <= j {
      BorderShrinks(p, i, j + 1);
    }
  }

  /** What an advance leaves ruled out. */
  lemma Advance(p: string, i: nat, b: nat)
    requires i + 1 < |p| && Longest(p, i + 1, b)
    ensures RuledOut(p, i + 2, b)
  {
    var n := i + 2;
    forall k: nat | Border(p, n, k) ensures k <= b + 1 {
      if 0 < k {
        BorderShrinks(p, i + 1, k);
      }
    }
  }

  predicate OccursAt(src: string, p: string, s: nat) {
    s + |p| <= |src| && src[s..s + |p|] == p
  }

  /** Build the border table in a linear number of steps. */
  method BuildNext(p: string) returns (next: array<int>, ghost steps: nat)
    requires 0 < |p|
    ensures fresh(next) && next.Length == |p| && Table(p, next[..], |p|) && steps <= 2 * (|p| - 1)
  {
    next := new int[|p|](_ => 0);
    next[0] := -1;
    var i, j := 0, -1;
    steps := 0;
    while i < |p| - 1
      invariant 0 <= i < |p| && (if i == 0 then j == -1 else -1 <= j < i) && next[0] == -1
      invariant Table(p, next[..], i + 1) && RuledOut(p, i + 1, j) && (0 <= j ==> Border(p, i, j))
      invariant steps + 2 * (|p| - 1 - i) + (j + 1) <= 2 * (|p| - 1)
      decreases 2 * (|p| - 1 - i) + (j + 1)
    {
      if j == -1 || p[i] == p[j] {
        Match(p, i, j);
        Advance(p, i, j + 1);
        i := i + 1;
        j := j + 1;
        next[i] := j;
      } else {
        Mismatch(p, next[..], i, j);
        j := next[j];
      }
      steps := steps + 1;
    }
  }

  /** Nothing before `n` is the start of an occurrence. */
  ghost predicate NoneBefore(src: string, p: string, n: int) {
    forall s: nat | s < n :: !OccursAt(src, p, s)
  }

  /** After a mismatch behind `j` matching characters, the next place where an occurrence can start. */
  lemma Shift(src: string, p: string, next: seq<int>, i: nat, j: nat)
    requires j < |p| && j <= i < |src| && src[i - j..i] == p[..j] && src[i] != p[j] && Table(p, next, |p|) &&
      NoneBefore(src, p, i - j)
    ensures NoneBefore(src, p, i - next[j]) && -1 <= next[j] < j &&
      (0 <= next[j] ==> src[i - next[j]..i] == p[..next[j]])
  {
    assert Longest(p, j, next[j]);
    if 0 <= next[j] {
      assert src[i - next[j]..i] == src[i - j..i][j - next[j]..] && p[..j][j - next[j]..] == p[j - next[j]..j];
    }
    assert i - j + |p| <= |src| ==> src[i - j..i - j + |p|][j] == src[i];
    forall s: nat | s < i - next[j] ensures !OccursAt(src, p, s) {
      if i - j < s {
        var k := i - s;
        assert s + |p| <= |src| ==> src[s..i] == src[s..s + |p|][..k];
        assert src[s..i] == src[i - j..i][j - k..] && p[j - k..j] == p[..j][j - k..];
        assert OccursAt(src, p, s) ==> Border(p, j, k);
      }
    }
  }

  /** Does the pattern occur in the source? The scan never goes back in the source and takes linearly many steps. */
  method StrContainsStr(srcStr: string, matchStr: string) returns (found: bool, ghost steps: nat)
    requires 0 < |matchStr|
    ensures found <==> exists s: nat :: OccursAt(srcStr, matchStr, s)
    ensures steps <= 2 * (|matchStr| - 1) + 2 * |srcStr|
  {
    var next;
    next, steps := BuildNext(matchStr);
    ghost var built := steps;
    var i, j := 0, 0;
    while i < |srcStr| && j < |matchStr|
      invariant 0 <= i <= |srcStr| && -1 <= j <= i && (j == -1 ==> i < |srcStr|) && j <= |matchStr| &&
        Table(matchStr, next[..], |matchStr|) && next.Length == |matchStr|
      invariant NoneBefore(srcStr, matchStr, i - j) && (0 <= j ==> srcStr[i - j..i] == matchStr[..j])
      invariant steps + 2 * (|srcStr| - i) + j <= built + 2 * |srcStr|
      decreases 2 * (|srcStr| - i) + j
    {
      if j == -1 || srcStr[i] == matchStr[j] {
        i := i + 1;
        j := j + 1;
        assert 0 < j ==>
          srcStr[i - j..i] == srcStr[i - j..i - 1] + [srcStr[i - 1]] &&
          matchStr[..j] == matchStr[..j - 1] + [matchStr[j - 1]];
      } else {
        Shift(srcStr, matchStr, next[..], i, j);
        j := next[j];
      }
      steps := steps + 1;
    }
    found := j == |matchStr|;
    if found {
      assert OccursAt(srcStr, matchStr, i - j);
    } else {
      forall s: nat ensures !OccursAt(srcStr, matchStr, s) {}
    }
  }

  // ---------- replacement ----------

  /** The first occurrence at or after `from`. */
  function Find(s: string, search: string, from: nat): (at: Option<nat>)
    requires from <= |s|
    ensures at.Some? ==>
      from <= at.value && OccursAt(s, search, at.value) && forall k: nat | from <= k < at.value ::
      !OccursAt(s, search, k)
    ensures at.None? ==> forall k: nat | from <= k :: !OccursAt(s, search, k)
    decreases |s| - from
  {
    if OccursAt(s, search, from) then Some(from)
    else if from < |s| then Find(s, search, from + 1)
    else None
  }

  /** The text between the matches, found left to right, each search starting behind the previous match. */
  function Pieces(s: string, search: string): (pieces: seq<string>)
    requires 0 < |search|
    ensures |pieces| > 0
    decreases |s|
  {
    match Find(s, search, 0)
    case None => [s]
    case Some(at) => [s[..at]] + Pieces(s[at + |search|..], search)
  }

  function Join(pieces: seq<string>, glue: string): string
    requires |pieces| > 0
  {
    if |pieces| == 1 then pieces[0] else pieces[0] + glue + Join(pieces[1..], glue)
  }

  function Matches(s: string, search: string): nat
    requires 0 < |search|
  {
    |Pieces(s, search)| - 1
  }

  /** Left-to-right replacement of non-overlapping matches. */
  function Replaced(s: string, search: string, replace: string): string
    requires 0 < |search|
  {
    Join(Pieces(s, search), replace)
  }

  /** The pieces are really those of the string. */
  lemma {:induction false} PiecesAre(s: string, search: string)
    requires 0 < |search|
    ensures Join(Pieces(s, search), search) == s
    decreases |s|
  {
    hide Find, OccursAt;
    if Find(s, search, 0).Some? {
      var at := Find(s, search, 0).value;
      FoundThere(s, search, 0);
      var rest := s[at + |search|..];
      PiecesAre(rest, search);
      assert Pieces(s, search)[1..] == Pieces(rest, search);
    }
  }

  lemma FoundThere(s: string, search: string, from: nat)
    requires from <= |s| && Find(s, search, from).Some?
    ensures var at := Find(s, search, from).value;
      from <= at && at + |search| <= |s| && s == s[..at] + search + s[at + |search|..]
  {
    hide Find;
  }

  /** Behind the last match there is no other. */
  lemma {:induction false} LastPieceFree(s: string, search: string, k: nat)
    requires 0 < |search|
    ensures !OccursAt(Pieces(s, search)[|Pieces(s, search)| - 1], search, k)
    decreases |s|
  {
    hide Find;
    if Find(s, search, 0).Some? {
      var at := Find(s, search, 0).value;
      LastPieceFree(s[at + |search|..], search, k);
    }
  }

  lemma {:induction false} JoinLength(pieces: seq<string>, a: string, b: string)
    requires |pieces| > 0
    ensures |Join(pieces, a)| - |Join(pieces, b)| == (|pieces| - 1) * (|a| - |b|)
  {
    if |pieces| > 1 {
      JoinLength(pieces[1..], a, b);
      assert (|pieces| - 1) * (|a| - |b|) == (|a| - |b|) + (|pieces| - 2) * (|a| - |b|);
    }
  }

  /** The length of the result. */
  lemma ReplacedLength(s: string, search: string, replace: string)
    requires 0 < |search|
    ensures |Replaced(s, search, replace)| == |s| + Matches(s, search) * (|replace| - |search|)
  {
    PiecesAre(s, search);
    JoinLength(Pieces(s, search), replace, search);
  }

  /** A match at or behind `from` is a match of the rest. */
  lemma FindInRest(s: string, search: string, from: nat)
    requires from <= |s|
    ensures match Find(s[from..], search, 0)
            case None => Find(s, search, from).None?
            case Some(at) => Find(s, search, from) == Some(from + at)
  {
    hide Find;
    forall k: nat | from <= k ensures OccursAt(s, search, k) <==> OccursAt(s[from..], search, k - from) {
      assert k + |search| <= |s| ==> s[k..k + |search|] == s[from..][k - from..k - from + |search|];
    }
    var rest := Find(s[from..], search, 0);
    if rest.Some? {
      assert OccursAt(s, search, from + rest.value);
    }
  }

  /** One replacement moves the work behind it. */
  lemma ReplacedUnfold(s: string, search: string, replace: string)
    requires 0 < |search|
    ensures match Find(s, search, 0)
            case None => Replaced(s, search, replace) == s
            case Some(at) =>
              Replaced(s, search, replace) == s[..at] + replace + Replaced(s[at + |search|..], search, replace)
  {
    hide Find;
    if Find(s, search, 0).Some? {
      var at := Find(s, search, 0).value;
      assert Pieces(s, search)[1..] == Pieces(s[at + |search|..], search);
    }
  }

  /** Replacement in place: matches are looked for behind the text already inserted. Deleting and substituting are two
      loops; after a deletion the search goes on at the place of the deletion. */
  method ReplaceWithSearchNotEmpty(str: string, search: string, replace: string) returns (s: string)
    requires 0 < |search|
    ensures s == Replaced(str, search, replace)
  {
    hide Find, OccursAt, Replaced, Pieces;
    if |str| == 0 {
      EmptyUnreplaced(search, replace);
      return "";
    }
    s := str;
    var matchIndex: nat := 0;
    var found := Find(s, search, matchIndex);
    if |replace| == 0 {
      while found.Some?
        invariant matchIndex <= |s| && found == Find(s, search, matchIndex)
        invariant s[..matchIndex] + Replaced(s[matchIndex..], search, replace) == Replaced(str, search, replace)
        decreases |s| - matchIndex
      {
        Progress(s, search, replace, matchIndex);
        FoundThere(s, search, matchIndex);
        matchIndex := found.value;
        assert s[..matchIndex] + s[matchIndex + |search|..] == s[..matchIndex] + replace + s[matchIndex + |search|..];
        s := s[..matchIndex] + s[matchIndex + |search|..];
        found := Find(s, search, matchIndex);
      }
    } else {
      while found.Some?
        invariant matchIndex <= |s| && found == Find(s, search, matchIndex)
        invariant s[..matchIndex] + Replaced(s[matchIndex..], search, replace) == Replaced(str, search, replace)
        decreases |s| - matchIndex
      {
        Progress(s, search, replace, matchIndex);
        FoundThere(s, search, matchIndex);
        matchIndex := found.value;
        s := s[..matchIndex] + replace + s[matchIndex + |search|..];
        matchIndex := matchIndex + |replace|;
        found := Find(s, search, matchIndex);
      }
    }
    FindInRest(s, search, matchIndex);
    ReplacedUnfold(s[matchIndex..], search, replace);
  }

  lemma EmptyUnreplaced(search: string, replace: string)
    requires 0 < |search|
    ensures Replaced("", search, replace) == ""
  {
    ReplacedUnfold("", search, replace);
  }

  /** The state after one replacement stands for the same result. */
  lemma Progress(s: string, search: string, replace: string, from: nat)
    requires 0 < |search| && from <= |s| && Find(s, search, from).Some?
    ensures var at := Find(s, search, from).value; var t := s[..at] + replace + s[at + |search|..];
      && t[..at + |replace|] + Replaced(t[at + |replace|..], search, replace) == s[..from] +
        Replaced(s[from..], search, replace)
      && |t| - (at + |replace|) < |s| - from
  {
    hide Find, OccursAt, Replaced, Pieces;
    var at := Find(s, search, from).value;
    FoundThere(s, search, from);
    var t := s[..at] + replace + s[at + |search|..];
    FindInRest(s, search, from);
    ReplacedUnfold(s[from..], search, replace);
    assert t[..at + |replace|] == s[..at] + replace && t[at + |replace|..] == s[at + |search|..];
    assert s[from..][at - from + |search|..] == s[at + |search|..] && s[..from] + s[from..][..at - from] == s[..at];
  }
}
