/** The few java.lang.String operations the agent's configuration code relies
    on: startsWith, equalsIgnoreCase (ASCII letters) and split on a single
    literal character. */
module JavaStrings {

  /** String.startsWith: `prefix` is an initial segment of `s`. */
  predicate StartsWith(s: string, prefix: string): (r: bool)
    ensures r <==> |prefix| <= |s| && s[..|prefix|] == prefix
    ensures prefix == [] ==> r
  {
    prefix <= s
  }

  /** Character.toLowerCase restricted to the ASCII letters. */
  function ToLowerAscii(c: char): char
  {
    if 'A' <= c <= 'Z' then (c as int + 32) as char else c
  }

  /** `x` and `y` are the same character, or the same ASCII letter in the
      other case. */
  predicate SameUpToAsciiCase(x: char, y: char)
  {
    || x == y
    || ('a' <= x <= 'z' && y as int == x as int - 32)
    || ('A' <= x <= 'Z' && y as int == x as int + 32)
  }

  /** String.equalsIgnoreCase with ASCII case folding: same length and the
      characters agree position by position once folded to lower case. */
  predicate EqualsIgnoreCase(a: string, b: string): (r: bool)
    ensures r ==> |a| == |b|
    ensures a == b ==> r
    ensures r ==> forall i :: 0 <= i < |a| && 'a' <= a[i] <= 'z' ==>
                    b[i] == a[i] || b[i] == (a[i] as int - 32) as char
    ensures r <==> |a| == |b| && forall i :: 0 <= i < |a| ==> SameUpToAsciiCase(a[i], b[i])
  {
    |a| == |b| && forall i :: 0 <= i < |a| ==> ToLowerAscii(a[i]) == ToLowerAscii(b[i])
  }

  /** `s` spells "true" with each letter in upper or lower case. */
  predicate SpellsTrue(s: string)
  {
    && |s| == 4
    && (s[0] == 't' || s[0] == 'T')
    && (s[1] == 'r' || s[1] == 'R')
    && (s[2] == 'u' || s[2] == 'U')
    && (s[3] == 'e' || s[3] == 'E')
  }

  /** Equal to "true" ignoring case, and spelling "true" letter by letter,
      are the same thing. */
  lemma EqualsTrueIffSpelling(s: string)
    ensures EqualsIgnoreCase("true", s) <==> SpellsTrue(s)
  {
  }

  /** The pieces of `s` between the separator `sep`, all of them, empty ones
      included: the list a split collects before discarding anything. */
  function Pieces(s: string, sep: char): (r: seq<string>)
    ensures |r| >= 1
    ensures forall i :: 0 <= i < |r| ==> sep !in r[i]
  {
    if s == [] then [[]]
    else
      var rest := Pieces(s[1..], sep);
      if s[0] == sep then [[]] + rest
      else [[s[0]] + rest[0]] + rest[1..]
  }

  /** String.join: the pieces with one separator between neighbours. */
  function Join(ps: seq<string>, sep: char): string
  {
    if |ps| == 0 then []
    else if |ps| == 1 then ps[0]
    else ps[0] + [sep] + Join(ps[1..], sep)
  }

  /** Joining the pieces of `s` gives `s` back. */
  lemma {:induction false} JoinPieces(s: string, sep: char)
    ensures Join(Pieces(s, sep), sep) == s
  {
    if s != [] {
      JoinPieces(s[1..], sep);
      var rest := Pieces(s[1..], sep);
      if s[0] == sep {
        assert Pieces(s, sep) == [[]] + rest;
        assert Join(Pieces(s, sep), sep) == [] + [sep] + Join(rest, sep);
      } else {
        var ps := Pieces(s, sep);
        assert ps == [[s[0]] + rest[0]] + rest[1..];
        if |rest| == 1 {
          assert Join(ps, sep) == [s[0]] + rest[0];
        } else {
          assert ps[1..] == rest[1..];
          assert Join(rest, sep) == rest[0] + [sep] + Join(rest[1..], sep);
          assert Join(ps, sep) == [s[0]] + rest[0] + [sep] + Join(rest[1..], sep);
        }
      }
    }
  }

  /** A piece free of the separator, followed by the separator, is split off
      as the first piece. */
  lemma {:induction false} PiecesAfterPiece(a: string, sep: char, b: string)
    requires sep !in a
    ensures Pieces(a + [sep] + b, sep) == [a] + Pieces(b, sep)
  {
    if a == [] {
      assert a + [sep] + b == [sep] + b;
      assert ([sep] + b)[1..] == b;
    } else {
      PiecesAfterPiece(a[1..], sep, b);
      assert (a + [sep] + b)[1..] == a[1..] + [sep] + b;
      assert [a[0]] + a[1..] == a;
    }
  }

  /** A string free of the separator is a single piece. */
  lemma {:induction false} PiecesOfPiece(a: string, sep: char)
    requires sep !in a
    ensures Pieces(a, sep) == [a]
  {
    if a != [] {
      PiecesOfPiece(a[1..], sep);
      assert [a[0]] + a[1..] == a;
    }
  }

  /** Splitting a join of separator-free pieces gives the pieces back. */
  lemma {:induction false} PiecesJoin(ps: seq<string>, sep: char)
    requires |ps| >= 1
    requires forall i :: 0 <= i < |ps| ==> sep !in ps[i]
    ensures Pieces(Join(ps, sep), sep) == ps
  {
    if |ps| == 1 {
      PiecesOfPiece(ps[0], sep);
    } else {
      PiecesJoin(ps[1..], sep);
      PiecesAfterPiece(ps[0], sep, Join(ps[1..], sep));
      assert [ps[0]] + ps[1..] == ps;
    }
  }

  /** The list of pieces with its trailing empty pieces removed. */
  function DropTrailingEmpty(ps: seq<string>): (r: seq<string>)
    ensures r <= ps
    ensures |r| > 0 ==> r[|r| - 1] != []
    ensures forall i :: |r| <= i < |ps| ==> ps[i] == []
  {
    if |ps| == 0 then []
    else if ps[|ps| - 1] == [] then DropTrailingEmpty(ps[..|ps| - 1])
    else ps
  }

  /** String.split(String.valueOf(sep)) with limit 0. With no separator in
      `s` the result is `s` alone (so "" gives [""]); otherwise it is every
      piece, trailing empty pieces dropped and leading or inner ones kept. */
  function Split(s: string, sep: char): (r: seq<string>)
    ensures sep !in s ==> r == [s]
    ensures sep in s ==>
      && r <= Pieces(s, sep)
      && (|r| > 0 ==> r[|r| - 1] != [])
      && forall i :: |r| <= i < |Pieces(s, sep)| ==> Pieces(s, sep)[i] == []
    ensures forall i :: 0 <= i < |r| ==> sep !in r[i]
  {
    if sep !in s then [s] else DropTrailingEmpty(Pieces(s, sep))
  }

  /** A join whose last piece is not empty splits back into its pieces. */
  lemma SplitJoin(ps: seq<string>, sep: char)
    requires |ps| >= 1 && ps[|ps| - 1] != []
    requires forall i :: 0 <= i < |ps| ==> sep !in ps[i]
    ensures Split(Join(ps, sep), sep) == ps
  {
    PiecesJoin(ps, sep);
    if sep !in Join(ps, sep) {
      PiecesOfPiece(Join(ps, sep), sep);
    }
  }

  /** A separator appended to `s` closes its last piece and opens an empty one. */
  lemma {:induction false} PiecesSnocSeparator(s: string, sep: char)
    ensures Pieces(s + [sep], sep) == Pieces(s, sep) + [[]]
  {
    if s == [] {
      assert [] + [sep] == [sep];
    } else {
      PiecesSnocSeparator(s[1..], sep);
      assert (s + [sep])[1..] == s[1..] + [sep];
    }
  }

  /** A trailing separator changes nothing in the split of a non-empty
      string; the empty string is the exception ("" gives [""], "," gives []). */
  lemma SplitIgnoresTrailingSeparator(s: string, sep: char)
    requires s != []
    ensures Split(s + [sep], sep) == Split(s, sep)
  {
    PiecesSnocSeparator(s, sep);
    var ps := Pieces(s, sep);
    assert sep in s + [sep] by { assert (s + [sep])[|s|] == sep; }
    assert (ps + [[]])[..|ps|] == ps;
    if sep !in s {
      PiecesOfPiece(s, sep);
    }
  }

  /** Any number of trailing separators changes nothing in the split of a
      non-empty string. */
  lemma {:induction false} SplitIgnoresTrailingSeparators(s: string, sep: char, count: nat)
    requires s != []
    ensures Split(s + seq(count, _ => sep), sep) == Split(s, sep)
  {
    if count == 0 {
      assert s + seq(count, _ => sep) == s;
    } else {
      SplitIgnoresTrailingSeparators(s, sep, count - 1);
      var shorter := s + seq(count - 1, _ => sep);
      SplitIgnoresTrailingSeparator(shorter, sep);
      assert s + seq(count, _ => sep) == shorter + [sep];
    }
  }
}
