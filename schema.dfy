/** The conditional rename that both cleaning modules share
    (cleaning_aelyana.py and cleaning_nazifa.py): a long question header is
    renamed to its short name only when the short name is not already a
    column and the normalised question is. */
module Schema {
  import opened Strings
  import opened Headers
  import opened Tables

  /** (question, short name) pairs in the order a dictionary literal lists
      them. */
  type Candidates = seq<(string, string)>

  /** The candidates with each question normalised, as the loop looks them
      up (`long_key = _norm_col(long_name)`). */
  function Keyed(cands: Candidates): (ks: Candidates)
    ensures |ks| == |cands|
    ensures forall i :: 0 <= i < |cands| ==> ks[i] == (Normalize(cands[i].0), cands[i].1)
  {
    seq(|cands|, i requires 0 <= i < |cands| => (Normalize(cands[i].0), cands[i].1))
  }

  /** The dictionary the loop builds from normalised candidates `ks` for the
      labels `cols`: a candidate whose short name is missing and whose key is
      present maps that key to its short name; a later candidate with the
      same key overwrites an earlier one. */
  function RenameDict(cols: seq<string>, ks: Candidates): map<string, string>
    decreases |ks|
  {
    if ks == [] then map[]
    else
      var n := |ks| - 1;
      var d := RenameDict(cols, ks[..n]);
      if ks[n].1 !in cols && ks[n].0 in cols then d[ks[n].0 := ks[n].1] else d
  }

  /** What the dictionary holds: only present labels, each mapped to the
      short name of a candidate whose key it is and whose short name is
      missing; and every such candidate's key is in it. */
  lemma {:induction false} RenameDictSpec(cols: seq<string>, ks: Candidates)
    ensures var d := RenameDict(cols, ks);
      && (forall k :: k in d ==> k in cols)
      && (forall k :: k in d ==> exists i :: 0 <= i < |ks| && ks[i] == (k, d[k]) && d[k] !in cols)
      && (forall i :: 0 <= i < |ks| && ks[i].1 !in cols && ks[i].0 in cols ==> ks[i].0 in d)
    decreases |ks|
  {
    if ks != [] {
      var n := |ks| - 1;
      var init := ks[..n];
      RenameDictSpec(cols, init);
      assert forall i :: 0 <= i < n ==> init[i] == ks[i];
      var d := RenameDict(cols, init);
      if ks[n].1 !in cols && ks[n].0 in cols {
        var d' := d[ks[n].0 := ks[n].1];
        forall k | k in d'
          ensures exists i :: 0 <= i < |ks| && ks[i] == (k, d'[k]) && d'[k] !in cols
        {
          if k == ks[n].0 {
            assert ks[n] == (k, d'[k]);
          } else {
            var i :| 0 <= i < n && init[i] == (k, d[k]) && d[k] !in cols;
            assert ks[i] == (k, d'[k]);
          }
        }
      }
    }
  }

  /** The loop that builds the rename dictionary. Each question is
      normalised before the loop rather than inside it; `_norm_col` is pure,
      so the keys are the same. */
  method BuildRenameDict(cols: seq<string>, cands: Candidates) returns (d: map<string, string>)
    ensures d == RenameDict(cols, Keyed(cands))
  {
    var ks := Keyed(cands);
    d := CollectRenames(cols, ks);
  }

  /** `for long_key, short in ...: if short not in out.columns and long_key
      in out.columns: rename_dict[long_key] = short`, one candidate at a
      time. */
  method CollectRenames(cols: seq<string>, ks: Candidates) returns (d: map<string, string>)
    ensures d == RenameDict(cols, ks)
  {
    d := map[];
    var i := 0;
    while i < |ks|
      invariant 0 <= i <= |ks|
      invariant d == RenameDict(cols, ks[..i])
    {
      var key, short := ks[i].0, ks[i].1;
      RenameDictStep(cols, ks, i, d);
      if short !in cols && key in cols {
        d := d[key := short];
      }
      i := i + 1;
    }
    WholePrefix(ks);
  }

  /** The prefix of every candidate is the whole list. */
  lemma WholePrefix(ks: Candidates)
    ensures ks[..|ks|] == ks
  {
  }

  /** One more candidate adds at most its own entry. */
  lemma {:induction false} RenameDictStep(cols: seq<string>, ks: Candidates, i: nat, d: map<string, string>)
    requires i < |ks| && d == RenameDict(cols, ks[..i])
    ensures ks[i].1 !in cols && ks[i].0 in cols ==> RenameDict(cols, ks[..i + 1]) == d[ks[i].0 := ks[i].1]
    ensures !(ks[i].1 !in cols && ks[i].0 in cols) ==> RenameDict(cols, ks[..i + 1]) == d
  {
    assert ks[..i + 1][..i] == ks[..i];
    assert ks[..i + 1][i] == ks[i];
  }

  /** The labels after `if rename_dict: out = out.rename(columns=rename_dict)`.
      No column is dropped; a label changes only into the short name of a
      candidate whose normalised question it is and whose short name was not
      a column; and every label that is such a question does change. */
  function ConditionalRename(cols: seq<string>, cands: Candidates): (r: seq<string>)
    ensures |r| == |cols|
    ensures forall p :: 0 <= p < |cols| && r[p] != cols[p] ==>
      exists i :: 0 <= i < |cands| && Keyed(cands)[i] == (cols[p], r[p]) && r[p] !in cols
    ensures forall p, i :: 0 <= p < |cols| && 0 <= i < |cands| && Keyed(cands)[i].0 == cols[p] && cands[i].1 !in cols ==>
      r[p] != cols[p]
  {
    var d := RenameDict(cols, Keyed(cands));
    RenameDictSpec(cols, Keyed(cands));
    if d == map[] then cols else RenameLabels(cols, d)
  }

  /** No short name is the normalised question of a different short name. */
  predicate Consistent(ks: Candidates) {
    forall i, j :: 0 <= i < |ks| && 0 <= j < |ks| && ks[i].1 == ks[j].0 ==> ks[j].1 == ks[i].1
  }

  /** After one rename, the loop finds nothing more to rename. */
  lemma NothingLeftToRename(cols: seq<string>, ks: Candidates)
    requires Consistent(ks)
    ensures RenameDict(RenameLabels(cols, RenameDict(cols, ks)), ks) == map[]
  {
    var d := RenameDict(cols, ks);
    var c2 := RenameLabels(cols, d);
    var d2 := RenameDict(c2, ks);
    RenameDictSpec(cols, ks);
    RenameDictSpec(c2, ks);
    forall k | k in d2
      ensures false
    {
      var i :| 0 <= i < |ks| && ks[i] == (k, d2[k]) && d2[k] !in c2;
      NotLeft(cols, ks, i);
    }
    assert d2.Keys == {};
  }

  /** No candidate is found twice: its key, if a label after the rename,
      has its short name among those labels too. */
  lemma NotLeft(cols: seq<string>, ks: Candidates, i: nat)
    requires Consistent(ks) && i < |ks|
    ensures var c2 := RenameLabels(cols, RenameDict(cols, ks));
      ks[i].0 in c2 ==> ks[i].1 in c2
  {
    var d := RenameDict(cols, ks);
    var c2 := RenameLabels(cols, d);
    RenameDictSpec(cols, ks);
    if ks[i].0 in c2 {
      var p :| 0 <= p < |cols| && c2[p] == ks[i].0;
      if cols[p] in d {
        // the label is a short name given by candidate j, so candidate i
        // maps it to itself
        var j :| 0 <= j < |ks| && ks[j] == (cols[p], d[cols[p]]) && d[cols[p]] !in cols;
        assert ks[i].1 == ks[j].1;
      } else {
        assert ks[i].1 in cols;
        var q :| 0 <= q < |cols| && cols[q] == ks[i].1;
        // the short name is not renamed: a candidate keyed by it keeps it
        assert cols[q] !in d;
        assert c2[q] == ks[i].1;
      }
    }
  }

  /** Renaming twice is renaming once. */
  lemma ConditionalRenameIdempotent(cols: seq<string>, cands: Candidates)
    requires Consistent(Keyed(cands))
    ensures ConditionalRename(ConditionalRename(cols, cands), cands) == ConditionalRename(cols, cands)
  {
    var ks := Keyed(cands);
    RenameNothing(cols);
    NothingLeftToRename(cols, ks);
  }

  predicate Distinct(s: seq<string>) {
    forall p, q :: 0 <= p < q < |s| ==> s[p] != s[q]
  }

  /** With distinct short names, renaming never makes two columns share a
      label. */
  lemma ConditionalRenameDistinct(cols: seq<string>, cands: Candidates)
    requires Distinct(cols)
    requires forall i, j :: 0 <= i < j < |cands| ==> cands[i].1 != cands[j].1
    ensures Distinct(ConditionalRename(cols, cands))
  {
    var ks := Keyed(cands);
    var r := ConditionalRename(cols, cands);
    forall p, q | 0 <= p < q < |r|
      ensures r[p] != r[q]
    {
      if r[p] != cols[p] && r[q] != cols[q] {
        var i :| 0 <= i < |cands| && ks[i] == (cols[p], r[p]) && r[p] !in cols;
        var j :| 0 <= j < |cands| && ks[j] == (cols[q], r[q]) && r[q] !in cols;
        assert cands[i].1 == r[p] && cands[j].1 == r[q];
        if i < j {
          assert r[p] != r[q];
        } else if j < i {
          assert r[p] != r[q];
        }
      } else if r[p] != cols[p] {
        var i :| 0 <= i < |cands| && ks[i] == (cols[p], r[p]) && r[p] !in cols;
        assert r[q] in cols;
      } else if r[q] != cols[q] {
        var j :| 0 <= j < |cands| && ks[j] == (cols[q], r[q]) && r[q] !in cols;
        assert r[p] in cols;
      }
    }
  }

  /** The shape of a candidate of the survey: the question is normalised,
      the short name has no whitespace, and the question is either the short
      name itself or several words. */
  predicate WellFormed(pair: (string, string)) {
    IsNormalized(pair.0) && NoSpace(pair.1) && (pair.0 == pair.1 || ' ' in pair.0)
  }

  /** Candidates of that shape are consistent, so the rename is idempotent. */
  lemma WellFormedConsistent(cands: Candidates)
    requires forall i :: 0 <= i < |cands| ==> WellFormed(cands[i])
    ensures Consistent(Keyed(cands))
  {
    var ks := Keyed(cands);
    forall i, j | 0 <= i < |ks| && 0 <= j < |ks| && ks[i].1 == ks[j].0
      ensures ks[j].1 == ks[i].1
    {
      NormalizeFixed(cands[j].0);
      ShortNotQuestion(cands[i], cands[j]);
    }
  }

  /** A short name is never a question of several words, so a candidate
      whose question is another's short name keeps that short name. */
  lemma ShortNotQuestion(p: (string, string), q: (string, string))
    requires WellFormed(p) && WellFormed(q) && p.1 == q.0
    ensures q.1 == p.1
  {
  }

  /** A question written as several words is a well-formed candidate for any
      short name without whitespace. */
  lemma QuestionWellFormed(ws: seq<string>, short: string)
    requires |ws| >= 2 && Words(ws)
    requires NoSpace(short)
    ensures WellFormed((Sentence(ws), short))
  {
    SentenceNormalized(ws);
    assert Sentence(ws)[|ws[0]|] == ' ';
  }

  /** A one-word label that is its own short name is well formed. */
  lemma ShortWellFormed(short: string)
    requires short != [] && Printable(short)
    ensures WellFormed((short, short))
  {
    PrintableWords([short]);
    SentenceNormalized([short]);
  }

  /** The header lines of both preparation functions on a table: labels
      normalised, then the long questions renamed where their short name is
      missing. */
  function Renamed(t: Table, cands: Candidates): (r: Table)
    requires Valid(t)
    ensures Valid(r) && r.data == t.data && r.height == t.height
    ensures r.columns == ConditionalRename(NormalizeLabels(t.columns), cands)
  {
    t.(columns := ConditionalRename(NormalizeLabels(t.columns), cands))
  }

  /** The same lines on the frame: `out.columns = [...]`, the loop that
      builds `rename_dict`, and `out.rename` when the dictionary is not
      empty. */
  method RenameInPlace(df: Frame, cands: Candidates)
    requires Valid(df.Value())
    modifies df
    ensures df.Value() == Renamed(old(df.Value()), cands)
  {
    NormalizeColumns(df);
    var d := BuildRenameDict(df.columns, cands);
    if d != map[] {
      df.RenameColumns(d);
    }
  }
}
