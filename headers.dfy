/** Header normalisation, as `_norm_header` (data_loader.py) and `_norm_col`
    (cleaning_aelyana.py, cleaning_nazifa.py) do it: the three functions have
    the same body, so they are modelled once. */
module Headers {
  import opened Strings

  /** The only whitespace is the plain space, and no two spaces are adjacent. */
  predicate Collapsed(s: string) {
    && (forall i :: 0 <= i < |s| && IsSpace(s[i]) ==> s[i] == ' ')
    && (forall i :: 0 <= i < |s| - 1 && s[i] == ' ' ==> s[i + 1] != ' ')
  }

  /** The shape a normalised header has: collapsed, and no space at either
      end. */
  predicate IsNormalized(s: string) {
    Collapsed(s) && (s != [] ==> s[0] != ' ' && s[|s| - 1] != ' ')
  }

  /** The no-break space, then the newline, then the tab become spaces. */
  function BreaksToSpaces(s: string): (r: string)
    ensures |r| == |s|
    ensures forall i :: 0 <= i < |s| ==> (IsSpace(r[i]) <==> IsSpace(s[i]))
    ensures forall i :: 0 <= i < |s| && !IsSpace(s[i]) ==> r[i] == s[i]
    ensures forall i :: 0 <= i < |s| ==> r[i] != Nbsp && r[i] != '\n' && r[i] != '\t'
  {
    ReplaceChar(ReplaceChar(ReplaceChar(s, Nbsp, ' '), '\n', ' '), '\t', ' ')
  }

  /** Putting one character in front of a collapsed string keeps it
      collapsed, unless that makes two spaces in a row. */
  lemma CollapsedCons(c: char, r: string)
    requires Collapsed(r) && (IsSpace(c) ==> c == ' ') && (c == ' ' ==> r == [] || r[0] != ' ')
    ensures Collapsed([c] + r)
  {
    assert forall k :: 0 < k <= |r| ==> ([c] + r)[k] == r[k - 1];
  }

  /** `re.sub(r"\s+", " ", s)`: each maximal run of whitespace becomes one
      space. */
  function CollapseSpaces(s: string): (r: string)
    ensures Collapsed(r)
    ensures (r == []) == (s == [])
    ensures s != [] ==> (r[0] == ' ' <==> IsSpace(s[0]))
    decreases |s|
  {
    if s == [] then []
    else if IsSpace(s[0]) then
      var t := TrimLeft(s);
      var rest := CollapseSpaces(t);
      CollapsedCons(' ', rest);
      [' '] + rest
    else
      var rest := CollapseSpaces(s[1..]);
      CollapsedCons(s[0], rest);
      [s[0]] + rest
  }

  lemma CollapsedSlice(s: string, i: nat, j: nat)
    requires Collapsed(s) && i <= j <= |s|
    ensures Collapsed(s[i..j])
  {
    assert forall k :: 0 <= k < j - i ==> s[i..j][k] == s[i + k];
  }

  /** Stripping a collapsed string leaves a normalised one. */
  lemma StripCollapsed(s: string)
    requires Collapsed(s)
    ensures IsNormalized(Strip(s))
  {
    var i, j :| 0 <= i <= j <= |s| && Strip(s) == s[i..j] && AllSpace(s[..i]) && AllSpace(s[j..]);
    CollapsedSlice(s, i, j);
  }

  /** `_norm_header(s)` / `_norm_col(s)`: the result has no no-break space,
      newline or tab, no space at either end and no two spaces in a row. */
  function Normalize(s: string): (r: string)
    ensures IsNormalized(r)
    ensures forall i :: 0 <= i < |r| ==> r[i] != Nbsp && r[i] != '\n' && r[i] != '\t'
  {
    var c := CollapseSpaces(BreaksToSpaces(s));
    StripCollapsed(c);
    Strip(c)
  }

  /** Collapsing a collapsed string changes nothing. */
  lemma {:induction false} CollapseFixed(s: string)
    requires Collapsed(s)
    ensures CollapseSpaces(s) == s
    decreases |s|
  {
    if s != [] {
      CollapsedSlice(s, 1, |s|);
      CollapseFixed(s[1..]);
      if IsSpace(s[0]) {
        CollapsedNext(s);
        TrimOneSpace(s);
        assert CollapseSpaces(s) == [' '] + CollapseSpaces(s[1..]);
      } else {
        assert CollapseSpaces(s) == [s[0]] + CollapseSpaces(s[1..]);
      }
      assert s == [s[0]] + s[1..];
    }
  }

  /** In a collapsed string a space is a plain space and is followed by no
      whitespace. */
  lemma {:induction false} CollapsedNext(s: string)
    requires Collapsed(s) && s != [] && IsSpace(s[0])
    ensures s[0] == ' ' && (|s| == 1 || !IsSpace(s[1]))
  {
  }

  /** `lstrip` of one space followed by no whitespace drops just that
      space. */
  lemma {:induction false} TrimOneSpace(s: string)
    requires s != [] && IsSpace(s[0]) && (|s| == 1 || !IsSpace(s[1]))
    ensures TrimLeft(s) == s[1..]
  {
    assert TrimLeft(s) == TrimLeft(s[1..]);
    if |s| > 1 {
      assert s[1..][0] == s[1];
    }
  }

  /** A header that is already normalised is left exactly as it is. */
  lemma {:induction false} NormalizeFixed(s: string)
    requires IsNormalized(s)
    ensures Normalize(s) == s
  {
    var b := BreaksToSpaces(s);
    assert b == s;
    CollapseFixed(s);
    StripKeeps(s);
  }

  /** Normalising twice is normalising once. */
  lemma NormalizeIdempotent(s: string)
    ensures Normalize(Normalize(s)) == Normalize(s)
  {
    NormalizeFixed(Normalize(s));
  }

  /** The characters of `s` that are not whitespace, in order. */
  function NonSpaces(s: string): string
    decreases |s|
  {
    if s == [] then [] else (if IsSpace(s[0]) then [] else [s[0]]) + NonSpaces(s[1..])
  }

  lemma {:induction false} NonSpacesAppend(a: string, b: string)
    ensures NonSpaces(a + b) == NonSpaces(a) + NonSpaces(b)
    decreases |a|
  {
    if a != [] {
      assert (a + b)[1..] == a[1..] + b;
      NonSpacesAppend(a[1..], b);
    } else {
      assert a + b == b;
    }
  }

  lemma {:induction false} NonSpacesOfSpace(s: string)
    requires AllSpace(s)
    ensures NonSpaces(s) == []
    decreases |s|
  {
    if s != [] {
      NonSpacesOfSpace(s[1..]);
    }
  }

  lemma {:induction false} NonSpacesSame(s: string, t: string)
    requires |s| == |t|
    requires forall i :: 0 <= i < |s| ==> (IsSpace(s[i]) <==> IsSpace(t[i]))
    requires forall i :: 0 <= i < |s| && !IsSpace(s[i]) ==> s[i] == t[i]
    ensures NonSpaces(s) == NonSpaces(t)
    decreases |s|
  {
    if s != [] {
      NonSpacesSame(s[1..], t[1..]);
    }
  }

  lemma {:induction false} CollapseKeepsNonSpaces(s: string)
    ensures NonSpaces(CollapseSpaces(s)) == NonSpaces(s)
    decreases |s|
  {
    if s != [] {
      if IsSpace(s[0]) {
        var t := TrimLeft(s);
        CollapseKeepsNonSpaces(t);
        assert s == s[..|s| - |t|] + t;
        NonSpacesAppend(s[..|s| - |t|], t);
        NonSpacesOfSpace(s[..|s| - |t|]);
        NonSpacesAppend(" ", CollapseSpaces(t));
      } else {
        CollapseKeepsNonSpaces(s[1..]);
        NonSpacesAppend([s[0]], CollapseSpaces(s[1..]));
      }
    }
  }

  lemma StripKeepsNonSpaces(s: string)
    ensures NonSpaces(Strip(s)) == NonSpaces(s)
  {
    var i, j :| 0 <= i <= j <= |s| && Strip(s) == s[i..j] && AllSpace(s[..i]) && AllSpace(s[j..]);
    assert s == s[..i] + s[i..j] + s[j..];
    NonSpacesMiddle(s[..i], s[i..j], s[j..]);
  }

  /** Whitespace on either side adds nothing to the non-whitespace. */
  lemma NonSpacesMiddle(x: string, y: string, z: string)
    requires AllSpace(x) && AllSpace(z)
    ensures NonSpaces(x + y + z) == NonSpaces(y)
  {
    NonSpacesAppend(x + y, z);
    NonSpacesAppend(x, y);
    NonSpacesOfSpace(x);
    NonSpacesOfSpace(z);
  }

  /** Normalising only ever touches whitespace: every other character of the
      header survives, in order. */
  lemma NormalizeKeepsNonSpaces(s: string)
    ensures NonSpaces(Normalize(s)) == NonSpaces(s)
  {
    var b := BreaksToSpaces(s);
    NonSpacesSame(s, b);
    CollapseKeepsNonSpaces(b);
    StripKeepsNonSpaces(CollapseSpaces(b));
  }

  /** A nonempty run of characters none of which is whitespace. */
  predicate IsWord(w: string) {
    w != [] && NoSpace(w)
  }

  /** A word, a space and a normalised text form a normalised text. */
  lemma JoinNormalized(a: string, b: string)
    requires IsWord(a) && b != [] && IsNormalized(b)
    ensures IsNormalized(a + " " + b)
  {
    var s := a + " " + b;
    assert forall k :: 0 <= k < |a| ==> s[k] == a[k];
    assert s[|a|] == ' ';
    assert forall k :: |a| < k < |s| ==> s[k] == b[k - |a| - 1];
  }

  /** Words written with one space between each two: the form a question
      of the survey form takes once normalised. */
  function Sentence(ws: seq<string>): (r: string)
    ensures ws == [] ==> r == []
    ensures ws != [] ==> |ws[0]| <= |r| && r[..|ws[0]|] == ws[0]
    ensures |ws| == 1 ==> r == ws[0]
    ensures |ws| >= 2 ==> |ws[0]| < |r| && r[|ws[0]|] == ' '
    ensures |ws| >= 2 ==> r[|ws[0]| + 1..] == Sentence(ws[1..])
  {
    if ws == [] then []
    else if |ws| == 1 then ws[0]
    else ws[0] + " " + Sentence(ws[1..])
  }

  /** Printable ASCII other than the space: the characters the survey's
      questions and short names are written in. */
  predicate Printable(s: string) {
    forall i :: 0 <= i < |s| ==> '!' <= s[i] <= '~'
  }

  /** A printable text has no whitespace. */
  lemma PrintableNoSpace(s: string)
    requires Printable(s)
    ensures NoSpace(s)
  {
  }

  /** Every word nonempty and free of whitespace. */
  predicate Words(ws: seq<string>) {
    forall k :: 0 <= k < |ws| ==> IsWord(ws[k])
  }

  /** Nonempty printable words are words. */
  lemma PrintableWords(ws: seq<string>)
    requires forall k :: 0 <= k < |ws| ==> ws[k] != [] && Printable(ws[k])
    ensures Words(ws)
  {
    forall k | 0 <= k < |ws|
      ensures IsWord(ws[k])
    {
      PrintableNoSpace(ws[k]);
    }
  }

  /** A sentence of words is a normalised header, and is empty only when
      there are no words. */
  lemma {:induction false} SentenceNormalized(ws: seq<string>)
    requires Words(ws)
    ensures IsNormalized(Sentence(ws))
    ensures Sentence(ws) == [] <==> ws == []
    decreases |ws|
  {
    if |ws| >= 2 {
      assert Words(ws[1..]) by {
        forall k | 0 <= k < |ws| - 1
          ensures IsWord(ws[1..][k])
        {
          assert ws[1..][k] == ws[k + 1];
        }
      }
      SentenceNormalized(ws[1..]);
      JoinNormalized(ws[0], Sentence(ws[1..]));
    } else if |ws| == 1 {
      assert IsWord(ws[0]);
    }
  }

  /** Different word lists make different sentences, so two questions that
      differ in any word are told apart after normalisation. */
  lemma {:induction false} SentenceInjective(ws1: seq<string>, ws2: seq<string>)
    requires Words(ws1) && Words(ws2)
    requires Sentence(ws1) == Sentence(ws2)
    ensures ws1 == ws2
    decreases |ws1|
  {
    if ws1 != [] && ws2 != [] {
      var r := Sentence(ws1);
      var a, b := ws1[0], ws2[0];
      assert IsWord(a) && IsWord(b);
      SameFirstWord(r, a, b);
      if |ws1| >= 2 && |ws2| >= 2 {
        WordsTail(ws1);
        WordsTail(ws2);
        SentenceInjective(ws1[1..], ws2[1..]);
      }
    }
  }

  /** The words after the first are words too, and with the first rebuild
      the list. */
  lemma {:induction false} WordsTail(ws: seq<string>)
    requires Words(ws) && ws != []
    ensures Words(ws[1..]) && ws == [ws[0]] + ws[1..]
  {
    assert forall k :: 0 <= k < |ws| - 1 ==> ws[1..][k] == ws[k + 1];
  }

  /** Two words that both start a text and are each followed by a space
      or by its end are the same word. */
  lemma {:induction false} SameFirstWord(r: string, a: string, b: string)
    requires IsWord(a) && IsWord(b)
    requires |a| <= |r| && r[..|a|] == a && (|a| < |r| ==> r[|a|] == ' ')
    requires |b| <= |r| && r[..|b|] == b && (|b| < |r| ==> r[|b|] == ' ')
    ensures a == b
  {
    if |a| == |b| {
      assert a == r[..|a|];
    }
  }
}
