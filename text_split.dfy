/** The line splitting done by the drawable's `setText`: Java's
    `String.split("\n")` behind a null-or-empty guard. */
module TextSplit {
  import opened Java

  const NEWLINE: char := '\n'

  predicate NoNewline(lines: seq<string>) {
    forall i :: 0 <= i < |lines| ==> NEWLINE !in lines[i]
  }

  /** The pieces of `s` between newline separators, empty pieces included
      (a string with k newlines has k + 1 pieces); built from the back. */
  function Pieces(s: string): (ps: seq<string>)
    ensures |ps| >= 1
    ensures NoNewline(ps)
  {
    if s == [] then [[]]
    else
      var init := Pieces(s[..|s| - 1]);
      var c := s[|s| - 1];
      if c == NEWLINE then init + [[]]
      else init[..|init| - 1] + [init[|init| - 1] + [c]]
  }

  /** The lines with one newline between consecutive ones. */
  function Join(lines: seq<string>): string {
    if |lines| == 0 then []
    else if |lines| == 1 then lines[0]
    else Join(lines[..|lines| - 1]) + [NEWLINE] + lines[|lines| - 1]
  }

  /** `ps` without its trailing empty strings: the rule `String.split`
      applies when called without a limit. */
  function DropTrailingEmpty(ps: seq<string>): (r: seq<string>)
    ensures r <= ps
    ensures r == [] || r[|r| - 1] != []
    ensures forall i :: |r| <= i < |ps| ==> ps[i] == []
  {
    if ps == [] then []
    else if ps[|ps| - 1] == [] then DropTrailingEmpty(ps[..|ps| - 1])
    else ps
  }

  /** Java's `s.split("\n")`: a string with no separator yields itself as the
      only element (even when empty); otherwise the pieces between
      separators, trailing empty pieces dropped. */
  function SplitOnNewline(s: string): (lines: seq<string>)
    ensures NEWLINE !in s ==> lines == [s]
    ensures NEWLINE in s ==> Join(lines) == StripTrailingNewlines(s) && NoNewline(lines)
    ensures NEWLINE in s ==> lines == [] || lines[|lines| - 1] != []
  {
    if NEWLINE !in s then [s]
    else
      JoinDropPieces(s);
      DropTrailingEmpty(Pieces(s))
  }

  /** The lines `setText` stores for `text`: none when `TextUtils.isEmpty`
      holds (null or ""), Java's split otherwise. */
  function SplitText(text: Nullable<string>): (lines: seq<string>)
    ensures NoNewline(lines)
    ensures lines == [] || lines[|lines| - 1] != []
  {
    match text
    case Null => []
    case NonNull(s) => if s == [] then [] else SplitOnNewline(s)
  }

  /** `s` without its trailing newlines. */
  function StripTrailingNewlines(s: string): (r: string)
    ensures r <= s
    ensures r == [] || r[|r| - 1] != NEWLINE
    ensures forall i :: |r| <= i < |s| ==> s[i] == NEWLINE
  {
    if s != [] && s[|s| - 1] == NEWLINE then StripTrailingNewlines(s[..|s| - 1]) else s
  }

  /** Joining the pieces of a string gives the string back. */
  lemma {:induction false} JoinPieces(s: string)
    ensures Join(Pieces(s)) == s
  {
    if s != [] {
      var s', c := s[..|s| - 1], s[|s| - 1];
      assert s == s' + [c];
      JoinPieces(s');
      var init := Pieces(s');
      if c == NEWLINE {
        assert (init + [[]])[..|init|] == init;
      } else {
        var ps := init[..|init| - 1] + [init[|init| - 1] + [c]];
        if |init| > 1 {
          assert ps[..|ps| - 1] == init[..|init| - 1];
        }
      }
    }
  }

  /** A newline-free string is a single piece. */
  lemma {:induction false} PiecesOfLine(w: string)
    requires NEWLINE !in w
    ensures Pieces(w) == [w]
  {
    if w != [] {
      var w' := w[..|w| - 1];
      assert NEWLINE !in w' by {
        forall i | 0 <= i < |w'| ensures w'[i] != NEWLINE {
          assert w'[i] == w[i];
        }
      }
      PiecesOfLine(w');
      assert w' + [w[|w| - 1]] == w;
    }
  }

  /** Appending one character: a separator opens a new empty piece, any
      other character extends the last piece. */
  lemma PiecesSnoc(t: string, c: char)
    ensures var init := Pieces(t);
      Pieces(t + [c]) == if c == NEWLINE then init + [[]] else init[..|init| - 1] + [init[|init| - 1] + [c]]
  {
    assert (t + [c])[..|t|] == t;
  }

  /** Extending the last of `ps + [v]` by `c` extends `v`. */
  lemma ExtendLast<T>(ps: seq<seq<T>>, v: seq<T>, c: T)
    ensures var qs := ps + [v]; qs[..|qs| - 1] + [qs[|qs| - 1] + [c]] == ps + [v + [c]]
  {
    var qs := ps + [v];
    assert qs[..|qs| - 1] == ps;
  }

  /** Appending a separator and a newline-free word appends that word as a
      new last piece. */
  lemma {:induction false} PiecesAppend(x: string, w: string)
    requires NEWLINE !in w
    ensures Pieces(x + [NEWLINE] + w) == Pieces(x) + [w]
    decreases |w|
  {
    if w == [] {
      assert x + [NEWLINE] + w == x + [NEWLINE];
      PiecesSnoc(x, NEWLINE);
    } else {
      var w', c := w[..|w| - 1], w[|w| - 1];
      assert NEWLINE !in w' by {
        forall i | 0 <= i < |w'| ensures w'[i] != NEWLINE {
          assert w'[i] == w[i];
        }
      }
      var y := x + [NEWLINE] + w';
      PiecesAppend(x, w');
      PiecesSnoc(y, c);
      assert y + [c] == x + [NEWLINE] + w;
      ExtendLast(Pieces(x), w', c);
      assert w' + [c] == w;
    }
  }

  /** Splitting the join of newline-free lines gives the lines back. */
  lemma {:induction false} PiecesJoin(lines: seq<string>)
    requires |lines| >= 1
    requires NoNewline(lines)
    ensures Pieces(Join(lines)) == lines
  {
    if |lines| == 1 {
      PiecesOfLine(lines[0]);
    } else {
      var init := lines[..|lines| - 1];
      assert NoNewline(init) by {
        forall i | 0 <= i < |init| ensures NEWLINE !in init[i] {
          assert init[i] == lines[i];
        }
      }
      PiecesJoin(init);
      PiecesAppend(Join(init), lines[|lines| - 1]);
      assert init + [lines[|lines| - 1]] == lines;
    }
  }

  /** Dropping the trailing empty pieces corresponds to stripping the
      trailing newlines. */
  lemma {:induction false} JoinDropPieces(s: string)
    ensures Join(DropTrailingEmpty(Pieces(s))) == StripTrailingNewlines(s)
  {
    if s != [] {
      var s', c := s[..|s| - 1], s[|s| - 1];
      var init := Pieces(s');
      if c == NEWLINE {
        assert (init + [[]])[..|init|] == init;
        JoinDropPieces(s');
      } else {
        JoinPieces(s);
      }
    }
  }

  /** Joining the lines `setText` stores gives the text with its trailing
      newlines removed, and there are no lines exactly when nothing but
      newlines (or nothing at all) was given. */
  lemma SplitTextJoin(text: Nullable<string>)
    ensures text.Null? ==> SplitText(text) == []
    ensures text.NonNull? ==> Join(SplitText(text)) == StripTrailingNewlines(text.value)
    ensures SplitText(text) == [] <==> text.Null? || StripTrailingNewlines(text.value) == []
  {
    if text.NonNull? && text.value != [] {
      var s := text.value;
      if NEWLINE in s {
        JoinDropPieces(s);
      } else {
        assert s[|s| - 1] != NEWLINE;
      }
    }
  }

  /** A join ends with the last line, and has a separator when there are
      two lines or more. */
  lemma {:induction false} JoinEndsWithLast(lines: seq<string>)
    requires |lines| >= 1
    ensures |lines[|lines| - 1]| <= |Join(lines)|
    ensures Join(lines)[|Join(lines)| - |lines[|lines| - 1]|..] == lines[|lines| - 1]
    ensures |lines| >= 2 ==> NEWLINE in Join(lines)
  {
    if |lines| >= 2 {
      var x := Join(lines[..|lines| - 1]);
      assert Join(lines)[|x|] == NEWLINE;
    }
  }

  /** `setText` recovers the lines from their join, for any newline-free
      lines whose last one is not empty (an empty last line would be dropped
      by the split). */
  lemma SplitJoinRoundTrip(lines: seq<string>)
    requires NoNewline(lines)
    requires lines == [] || lines[|lines| - 1] != []
    ensures SplitText(NonNull(Join(lines))) == lines
  {
    if lines != [] {
      var s := Join(lines);
      JoinEndsWithLast(lines);
      assert s != [];
      if NEWLINE in s {
        PiecesJoin(lines);
      } else {
        assert |lines| == 1;
      }
    }
  }

  /** A text with one separator gives two lines. */
  lemma SplitTwoLines()
    ensures SplitText(NonNull("A\nB")) == ["A", "B"]
  {
    assert Join(["A", "B"]) == "A\nB";
    SplitJoinRoundTrip(["A", "B"]);
  }

  /** Trailing separators yield no lines of their own. */
  lemma SplitOnlySeparators()
    ensures SplitText(NonNull("\n\n")) == []
  {
    SplitTextJoin(NonNull("\n\n"));
  }

  /** A leading separator yields an empty first line, a trailing one no
      line. */
  lemma SplitLeadingSeparator()
    ensures SplitText(NonNull("\nA\n")) == ["", "A"]
  {
    assert Join(["", "A"]) == "\nA";
    SplitJoinRoundTrip(["", "A"]);
    assert Pieces("\nA\n") == Pieces("\nA") + [[]] by {
      assert "\nA\n"[..2] == "\nA";
    }
  }
}
