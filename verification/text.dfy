/** The JavaScript string operations the sync engine relies on, on `seq<char>`:
    `split` with a non-empty string separator, `includes`, the global
    `replace(/-/g, '')`, and the relational `<` / `>` on strings. */
module Text {
  import Seqs

  /** `String.prototype.split(sep)` for a non-empty separator: scanning from
      the left, every non-overlapping occurrence of `sep` ends a piece. */
  function Split(s: string, sep: string): (r: seq<string>)
    requires |sep| > 0
    ensures |r| >= 1
    decreases |s|
  {
    if |s| < |sep| then [s]
    else if s[..|sep|] == sep then [""] + Split(s[|sep|..], sep)
    else
      var t := Split(s[1..], sep);
      [[s[0]] + t[0]] + t[1..]
  }

  /** `Array.prototype.join(sep)`. */
  function JoinWith(parts: seq<string>, sep: string): string
  {
    if |parts| == 0 then ""
    else if |parts| == 1 then parts[0]
    else parts[0] + sep + JoinWith(parts[1..], sep)
  }

  /** Splitting loses nothing: joining the pieces back with the separator
      gives the original string. */
  lemma {:induction false} SplitJoin(s: string, sep: string)
    requires |sep| > 0
    ensures JoinWith(Split(s, sep), sep) == s
    decreases |s|
  {
    if |s| < |sep| {
    } else if s[..|sep|] == sep {
      var t := Split(s[|sep|..], sep);
      SplitJoin(s[|sep|..], sep);
      JoinEmptyHead(t, sep);
      assert s == sep + s[|sep|..];
    } else {
      var t := Split(s[1..], sep);
      SplitJoin(s[1..], sep);
      JoinConsHead(s[0], t, sep);
      assert s == [s[0]] + s[1..];
    }
  }

  lemma JoinEmptyHead(t: seq<string>, sep: string)
    requires |t| >= 1
    ensures JoinWith([""] + t, sep) == sep + JoinWith(t, sep)
  {
    assert ([""] + t)[1..] == t;
  }

  lemma JoinConsHead(c: char, t: seq<string>, sep: string)
    requires |t| >= 1
    ensures JoinWith([[c] + t[0]] + t[1..], sep) == [c] + JoinWith(t, sep)
  {
    var r := [[c] + t[0]] + t[1..];
    if |t| > 1 {
      assert r[1..] == t[1..];
    }
  }

  /** A first piece that cannot start the separator ends at the first
      separator: splitting `x + sep + y` yields `x` and then the pieces of `y`. */
  lemma {:induction false} SplitFirstPiece(x: string, sep: string, y: string)
    requires |sep| > 0 && sep[0] !in x
    ensures Split(x + sep + y, sep) == [x] + Split(y, sep)
    decreases |x|
  {
    var s := x + sep + y;
    if x == [] {
      assert s == sep + y;
      assert s[..|sep|] == sep;
      assert s[|sep|..] == y;
    } else {
      assert s[..|sep|][0] == x[0];
      assert s[1..] == x[1..] + sep + y;
      SplitFirstPiece(x[1..], sep, y);
      assert [x[0]] + x[1..] == x;
    }
  }

  /** A string in which the separator's first character never occurs is a
      single piece. */
  lemma {:induction false} SplitNoSeparator(s: string, sep: string)
    requires |sep| > 0 && sep[0] !in s
    ensures Split(s, sep) == [s]
    decreases |s|
  {
    if |s| >= |sep| {
      assert s[..|sep|][0] == s[0];
      SplitNoSeparator(s[1..], sep);
      assert [s[0]] + s[1..] == s;
    }
  }

  /** With a one-character separator the number of pieces is one more than
      the number of occurrences of that character. */
  lemma {:induction false} SplitCharPieces(s: string, c: char)
    ensures |Split(s, [c])| == Seqs.Count(s, c) + 1
    decreases |s|
  {
    if |s| < 1 {
    } else if s[..1] == [c] {
      SplitCharPieces(s[1..], c);
    } else {
      SplitCharPieces(s[1..], c);
    }
  }

  predicate StartsWith(s: string, t: string)
  {
    |t| <= |s| && s[..|t|] == t
  }

  predicate EndsWith(s: string, t: string)
  {
    |t| <= |s| && s[|s| - |t|..] == t
  }

  /** `t` occurs in `s` starting at position `i`. */
  predicate OccursAt(s: string, t: string, i: int)
  {
    0 <= i <= |s| - |t| && s[i..i + |t|] == t
  }

  /** `String.prototype.includes(t)`. */
  predicate Includes(s: string, t: string)
    ensures Includes(s, t) <==> exists i :: OccursAt(s, t, i)
    decreases |s|
  {
    if |t| > |s| then false
    else if s[..|t|] == t then
      assert OccursAt(s, t, 0);
      true
    else
      assert forall i :: OccursAt(s, t, i) ==> i >= 1 && OccursAt(s[1..], t, i - 1);
      assert forall i :: OccursAt(s[1..], t, i) ==> OccursAt(s, t, i + 1);
      Includes(s[1..], t)
  }

  /** `s.replace(/-/g, '')`: every dash removed. */
  function StripDashes(s: string): (r: string)
    ensures '-' !in r
    ensures |r| == |s| - Seqs.Count(s, '-')
    ensures Seqs.IsSubsequence(r, s)
  {
    var r := Seqs.Filter(s, c => c != '-');
    StripDashesLength(s);
    Seqs.FilterMembers(s, c => c != '-');
    Seqs.FilterIsSubsequence(s, c => c != '-');
    r
  }

  lemma {:induction false} StripDashesLength(s: string)
    ensures |Seqs.Filter(s, c => c != '-')| == |s| - Seqs.Count(s, '-')
  {
    if s != [] {
      StripDashesLength(s[1..]);
    }
  }

  /** The relational `a < b` on JavaScript strings: lexicographic by
      character (here a Unicode code point; JavaScript compares UTF-16 code
      units, which agree on the ASCII dates compared), a proper prefix being
      smaller. */
  predicate Less(a: string, b: string)
  {
    if b == [] then false
    else if a == [] then true
    else if a[0] != b[0] then a[0] < b[0]
    else Less(a[1..], b[1..])
  }

  /** `a` is a proper prefix of `b`. */
  predicate ProperPrefix(a: string, b: string)
  {
    |a| < |b| && a == b[..|a|]
  }

  /** At the first position where `a` and `b` differ, `a` has the smaller
      character. */
  predicate DiffersBelow(a: string, b: string)
  {
    exists i :: 0 <= i < |a| && i < |b| && a[..i] == b[..i] && a[i] < b[i]
  }

  /** `Less` is the strict lexicographic order: `a` is below `b` exactly when
      `a` is a proper prefix of `b` or the first differing character is smaller. */
  lemma {:induction false} LessMeaning(a: string, b: string)
    ensures Less(a, b) <==> ProperPrefix(a, b) || DiffersBelow(a, b)
  {
    if b == [] || a == [] {
    } else if a[0] != b[0] {
      FirstDiffers(a, b);
    } else {
      LessMeaning(a[1..], b[1..]);
      PrefixTail(a, b);
      DiffersTail(a, b);
    }
  }

  lemma FirstDiffers(a: string, b: string)
    requires a != [] && b != [] && a[0] != b[0]
    ensures !ProperPrefix(a, b)
    ensures DiffersBelow(a, b) <==> a[0] < b[0]
  {
    assert a[..0] == b[..0];
    forall i | 0 < i < |a| && i < |b| ensures a[..i] != b[..i] {
      assert a[..i][0] == a[0];
      assert b[..i][0] == b[0];
    }
  }

  lemma PrefixTail(a: string, b: string)
    requires a != [] && b != [] && a[0] == b[0]
    ensures ProperPrefix(a, b) <==> ProperPrefix(a[1..], b[1..])
  {
    if ProperPrefix(a, b) {
      assert a[1..] == b[1..][..|a| - 1];
    }
    if ProperPrefix(a[1..], b[1..]) {
      assert a == [a[0]] + a[1..];
      assert b[..|a|] == [b[0]] + b[1..][..|a| - 1];
    }
  }

  lemma DiffersTail(a: string, b: string)
    requires a != [] && b != [] && a[0] == b[0]
    ensures DiffersBelow(a, b) <==> DiffersBelow(a[1..], b[1..])
  {
    if DiffersBelow(a, b) {
      var i :| 0 <= i < |a| && i < |b| && a[..i] == b[..i] && a[i] < b[i];
      DiffersDrop(a, b, i);
    }
    if DiffersBelow(a[1..], b[1..]) {
      var j :| 0 <= j < |a| - 1 && j < |b| - 1 && a[1..][..j] == b[1..][..j] && a[1..][j] < b[1..][j];
      DiffersAdd(a, b, j);
    }
  }

  lemma DiffersDrop(a: string, b: string, i: int)
    requires a != [] && b != [] && a[0] == b[0]
    requires 0 <= i < |a| && i < |b| && a[..i] == b[..i] && a[i] < b[i]
    ensures DiffersBelow(a[1..], b[1..])
  {
    assert i > 0;
    assert a[1..][..i - 1] == a[..i][1..];
    assert b[1..][..i - 1] == b[..i][1..];
    assert a[1..][i - 1] == a[i] && b[1..][i - 1] == b[i];
  }

  lemma DiffersAdd(a: string, b: string, j: int)
    requires a != [] && b != [] && a[0] == b[0]
    requires 0 <= j < |a| - 1 && j < |b| - 1 && a[1..][..j] == b[1..][..j] && a[1..][j] < b[1..][j]
    ensures DiffersBelow(a, b)
  {
    assert a[..j + 1] == [a[0]] + a[1..][..j];
    assert b[..j + 1] == [b[0]] + b[1..][..j];
    assert a[j + 1] == a[1..][j] && b[j + 1] == b[1..][j];
  }

  /** No string is below itself. */
  lemma {:induction false} LessIrreflexive(a: string)
    ensures !Less(a, a)
  {
    if a != [] {
      LessIrreflexive(a[1..]);
    }
  }

  /** Distinct strings are always ordered one way or the other, never both. */
  lemma {:induction false} LessTrichotomy(a: string, b: string)
    ensures a == b || Less(a, b) || Less(b, a)
    ensures !(Less(a, b) && Less(b, a))
  {
    if a != [] && b != [] && a[0] == b[0] {
      LessTrichotomy(a[1..], b[1..]);
      if a[1..] == b[1..] {
        assert a == [a[0]] + a[1..] && b == [b[0]] + b[1..];
      }
    }
  }
}
