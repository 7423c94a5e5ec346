/**
 * Rust's `str::split(" ")` and `str::contains`, and the tokenising step the
 * `/proc` parsers share: split on single spaces, then drop the empty pieces.
 */
module Text {

  /** The pieces of `s` between occurrences of `sep`, empty pieces included,
      as `s.split(sep)` yields them: a string with n separators has n + 1 pieces. */
  function SplitOn(s: string, sep: char): (r: seq<string>)
    ensures |r| >= 1
    ensures forall k :: 0 <= k < |r| ==> sep !in r[k]
    decreases |s|
  {
    if s == [] then [""]
    else
      var rest := SplitOn(s[1..], sep);
      if s[0] == sep then [""] + rest
      else [[s[0]] + rest[0]] + rest[1..]
  }

  /** The pieces glued back together with one `sep` between neighbours. */
  function Join(ps: seq<string>, sep: char): string
    requires |ps| >= 1
    decreases |ps|
  {
    if |ps| == 1 then ps[0] else ps[0] + [sep] + Join(ps[1..], sep)
  }

  /** A piece that survives the filter and carries no separator. */
  predicate IsToken(t: string) {
    t != "" && ' ' !in t
  }

  /** The pieces that are not empty, in their original order. */
  function NonEmpty(ps: seq<string>): (r: seq<string>)
    ensures |r| <= |ps|
    ensures forall k :: 0 <= k < |r| ==> r[k] != "" && r[k] in ps
    decreases |ps|
  {
    if ps == [] then []
    else (if ps[0] == "" then [] else [ps[0]]) + NonEmpty(ps[1..])
  }

  /** `line.split(" ").filter(|s| *s != "")`. */
  function Tokens(line: string): (r: seq<string>)
    ensures forall k :: 0 <= k < |r| ==> IsToken(r[k])
  {
    NonEmpty(SplitOn(line, ' '))
  }

  /** `s.contains(pat)`: `pat` occurs at some position of `s`. */
  predicate Contains(s: string, pat: string)
    decreases |s|
  {
    pat <= s || (s != [] && Contains(s[1..], pat))
  }

  /** `pat` occurs in `s` starting at position `i`. */
  predicate OccursAt(s: string, pat: string, i: int) {
    0 <= i && i + |pat| <= |s| && s[i..i + |pat|] == pat
  }

  /** `Contains` finds `pat` exactly when it occurs at some position of `s`. */
  lemma {:induction false} ContainsAt(s: string, pat: string)
    ensures Contains(s, pat) <==> exists i :: OccursAt(s, pat, i)
    decreases |s|
  {
    assert OccursAt(s, pat, 0) <==> pat <= s;
    if s != [] {
      ContainsAt(s[1..], pat);
      forall i | 0 <= i
        ensures OccursAt(s, pat, i + 1) <==> OccursAt(s[1..], pat, i)
      {
        if i + 1 + |pat| <= |s| {
          assert s[i + 1..i + 1 + |pat|] == s[1..][i..i + |pat|];
        }
      }
      if Contains(s[1..], pat) {
        var i :| OccursAt(s[1..], pat, i);
        assert OccursAt(s, pat, i + 1);
      }
      forall j | OccursAt(s, pat, j) && j > 0
        ensures Contains(s[1..], pat)
      {
        assert OccursAt(s[1..], pat, j - 1);
      }
    }
  }

  /** The characters of `s` other than `c`, in order. */
  function Without(s: string, c: char): (r: string)
    ensures c !in r
  {
    if s == [] then [] else (if s[0] == c then [] else [s[0]]) + Without(s[1..], c)
  }

  /** All the strings of `ps`, one after the other. */
  function Concat(ps: seq<string>): string {
    if ps == [] then [] else ps[0] + Concat(ps[1..])
  }

  // ---------------------------------------------------------------- split

  /** Splitting and joining are inverse: no character of the line is lost. */
  lemma {:induction false} JoinSplitOn(s: string, sep: char)
    ensures Join(SplitOn(s, sep), sep) == s
    decreases |s|
  {
    if s != [] {
      var rest := SplitOn(s[1..], sep);
      JoinSplitOn(s[1..], sep);
      if s[0] == sep {
        assert SplitOn(s, sep) == [""] + rest;
        assert ([""] + rest)[1..] == rest;
      } else {
        var r := SplitOn(s, sep);
        assert r == [[s[0]] + rest[0]] + rest[1..];
        if |rest| == 1 {
          assert s == [s[0]] + s[1..];
        } else {
          assert r[1..] == rest[1..];
          assert Join(rest, sep) == rest[0] + [sep] + Join(rest[1..], sep);
          assert s == [s[0]] + s[1..];
        }
      }
    }
  }

  /** A separator splits the line into the pieces before it and the pieces after it. */
  lemma {:induction false} SplitOnAround(a: string, b: string, sep: char)
    ensures SplitOn(a + [sep] + b, sep) == SplitOn(a, sep) + SplitOn(b, sep)
    decreases |a|
  {
    if a == [] {
      assert a + [sep] + b == [sep] + b;
      assert ([sep] + b)[1..] == b;
    } else {
      var s := a + [sep] + b;
      assert s[0] == a[0] && s[1..] == a[1..] + [sep] + b;
      SplitOnAround(a[1..], b, sep);
    }
  }

  /** A string without the separator is a single piece. */
  lemma {:induction false} SplitOnWithout(s: string, sep: char)
    requires sep !in s
    ensures SplitOn(s, sep) == [s]
    decreases |s|
  {
    if s != [] {
      SplitOnWithout(s[1..], sep);
      assert s == [s[0]] + s[1..];
    }
  }

  /** Joining pieces free of the separator and splitting again gives the pieces back. */
  lemma {:induction false} SplitOnJoin(ps: seq<string>, sep: char)
    requires |ps| >= 1
    requires forall k :: 0 <= k < |ps| ==> sep !in ps[k]
    ensures SplitOn(Join(ps, sep), sep) == ps
    decreases |ps|
  {
    SplitOnWithout(ps[0], sep);
    if |ps| > 1 {
      SplitOnJoin(ps[1..], sep);
      SplitOnAround(ps[0], Join(ps[1..], sep), sep);
      assert [ps[0]] + ps[1..] == ps;
    }
  }

  // ---------------------------------------------------------------- tokens

  lemma {:induction false} NonEmptyAppend(a: seq<string>, b: seq<string>)
    ensures NonEmpty(a + b) == NonEmpty(a) + NonEmpty(b)
    decreases |a|
  {
    if a == [] {
      assert a + b == b;
    } else {
      assert (a + b)[0] == a[0] && (a + b)[1..] == a[1..] + b;
      NonEmptyAppend(a[1..], b);
    }
  }

  /** The filter keeps a sequence without empty pieces as it is. */
  lemma {:induction false} NonEmptyKeeps(ps: seq<string>)
    requires forall k :: 0 <= k < |ps| ==> ps[k] != ""
    ensures NonEmpty(ps) == ps
    decreases |ps|
  {
    if ps != [] {
      NonEmptyKeeps(ps[1..]);
      assert [ps[0]] + ps[1..] == ps;
    }
  }

  lemma {:induction false} ConcatNonEmpty(ps: seq<string>)
    ensures Concat(NonEmpty(ps)) == Concat(ps)
    decreases |ps|
  {
    if ps != [] {
      ConcatNonEmpty(ps[1..]);
      ConcatAppend(if ps[0] == "" then [] else [ps[0]], NonEmpty(ps[1..]));
    }
  }

  lemma {:induction false} ConcatAppend(a: seq<string>, b: seq<string>)
    ensures Concat(a + b) == Concat(a) + Concat(b)
    decreases |a|
  {
    if a == [] {
      assert a + b == b;
    } else {
      assert (a + b)[0] == a[0] && (a + b)[1..] == a[1..] + b;
      ConcatAppend(a[1..], b);
    }
  }

  lemma {:induction false} ConcatSplitOn(s: string, sep: char)
    ensures Concat(SplitOn(s, sep)) == Without(s, sep)
    decreases |s|
  {
    if s != [] {
      ConcatSplitOn(s[1..], sep);
      var rest := SplitOn(s[1..], sep);
      if s[0] != sep {
        assert rest == [rest[0]] + rest[1..];
        assert Concat(rest) == rest[0] + Concat(rest[1..]);
        assert Concat([[s[0]] + rest[0]] + rest[1..]) == [s[0]] + rest[0] + Concat(rest[1..]);
      } else {
        assert Concat([""] + rest) == Concat(rest);
      }
    }
  }

  /** The tokens keep the line's order: together they are exactly the
      characters of the line that are not spaces. */
  lemma TokensInLineOrder(line: string)
    ensures Concat(Tokens(line)) == Without(line, ' ')
  {
    ConcatNonEmpty(SplitOn(line, ' '));
    ConcatSplitOn(line, ' ');
  }

  /** A space divides the tokens of the line between the two sides of it. */
  lemma TokensAround(a: string, b: string)
    ensures Tokens(a + " " + b) == Tokens(a) + Tokens(b)
  {
    SplitOnAround(a, b, ' ');
    NonEmptyAppend(SplitOn(a, ' '), SplitOn(b, ' '));
  }

  /** Runs of spaces do not shift token positions: two spaces act as one. */
  lemma RunsOfSpacesCollapse(a: string, b: string)
    ensures Tokens(a + "  " + b) == Tokens(a + " " + b)
  {
    var sb := " " + b;
    assert a + "  " + b == a + " " + sb;
    assert "" + " " + b == sb;
    assert Tokens("") == [] by {
      assert SplitOn("", ' ') == [""];
    }
    calc {
      Tokens(a + "  " + b);
      { TokensAround(a, sb); }
      Tokens(a) + Tokens(sb);
      { TokensAround("", b); }
      Tokens(a) + Tokens(b);
      { TokensAround(a, b); }
      Tokens(a + " " + b);
    }
  }

  /** Tokens written out with single spaces are read back unchanged. */
  lemma TokensOfJoin(ts: seq<string>)
    requires |ts| >= 1
    requires forall k :: 0 <= k < |ts| ==> IsToken(ts[k])
    ensures Tokens(Join(ts, ' ')) == ts
  {
    SplitOnJoin(ts, ' ');
    NonEmptyKeeps(ts);
  }

  /** A line whose raw pieces are all non-empty (no leading, trailing or
      doubled space) tokenises to those same raw pieces. */
  lemma TokensOfSingleSpaced(line: string)
    requires forall k :: 0 <= k < |SplitOn(line, ' ')| ==> SplitOn(line, ' ')[k] != ""
    ensures Tokens(line) == SplitOn(line, ' ')
  {
    NonEmptyKeeps(SplitOn(line, ' '));
  }

  // ------------------------------------------------ reading a line piece by piece

  /** A string without spaces is a single piece, and a token unless empty. */
  lemma TokensOfPiece(w: string)
    requires ' ' !in w
    ensures SplitOn(w, ' ') == [w]
    ensures Tokens(w) == if w == "" then [] else [w]
  {
    SplitOnWithout(w, ' ');
  }

  /** Appending a space and a piece appends that piece to the raw split. */
  lemma SplitOnSnoc(p: string, w: string)
    requires ' ' !in w
    ensures SplitOn(p + " " + w, ' ') == SplitOn(p, ' ') + [w]
  {
    SplitOnAround(p, w, ' ');
    TokensOfPiece(w);
  }

  /** Appending a space and a piece appends the piece to the tokens, unless it is empty. */
  lemma TokensSnoc(p: string, w: string)
    requires ' ' !in w
    ensures Tokens(p + " " + w) == Tokens(p) + if w == "" then [] else [w]
  {
    TokensAround(p, w);
    TokensOfPiece(w);
  }
}
