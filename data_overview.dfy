/**
 * The Streamlit data overview (components/data_overview.py): the "Total Files"
 * metric and two frequency dictionaries over the training files, by type and
 * by processing status, each charted only when it is non-empty. A Python
 * dictionary keeps its keys in insertion order, so a tally is modelled as a
 * sequence of entries in that order.
 */
module DataOverview {
  import opened Common

  /** The fields of a training-file record that the overview reads. */
  datatype TrainingFile = TrainingFile(name: string, fileType: string, status: string)

  /** One key of a tally dictionary with its count. */
  datatype Entry = Entry(key: string, count: nat)

  function Keys(entries: seq<Entry>): (ks: seq<string>)
    ensures |ks| == |entries| && forall i :: 0 <= i < |entries| ==> ks[i] == entries[i].key
  {
    seq(|entries|, i requires 0 <= i < |entries| => entries[i].key)
  }

  /** `d.get(key)` as a position: where `key` sits among the entries, if anywhere. */
  function IndexOf(entries: seq<Entry>, key: string): (r: Option<nat>)
    ensures r.None? <==> key !in Keys(entries)
    ensures r.Some? ==> r.value < |entries| && entries[r.value].key == key
  {
    if entries == [] then None
    else if entries[|entries| - 1].key == key then Some(|entries| - 1)
    else
      var r := IndexOf(entries[..|entries| - 1], key);
      assert Keys(entries) == Keys(entries[..|entries| - 1]) + [entries[|entries| - 1].key];
      r
  }

  /** `d[key] = d.get(key, 0) + 1` on the entries. */
  function Bump(entries: seq<Entry>, key: string): seq<Entry>
  {
    match IndexOf(entries, key)
    case Some(k) => entries[k := Entry(key, entries[k].count + 1)]
    case None => entries + [Entry(key, 1)]
  }

  /** The dictionary after counting every value in order. */
  function TallyOf(values: seq<string>): seq<Entry>
  {
    if values == [] then [] else Bump(TallyOf(values[..|values| - 1]), values[|values| - 1])
  }

  /**
   * The counting loop, with the dictionary's key lookup, increment and
   * insertion written out.
   */
  method Tally(values: seq<string>) returns (entries: seq<Entry>)
    ensures entries == TallyOf(values)
  {
    entries := [];
    for i := 0 to |values|
      invariant entries == TallyOf(values[..i])
    {
      assert values[..i + 1][..i] == values[..i];
      var v := values[i];
      match IndexOf(entries, v) {
        case Some(k) =>
          entries := entries[k := Entry(v, entries[k].count + 1)];
        case None =>
          entries := entries + [Entry(v, 1)];
      }
    }
    assert values[..|values|] == values;
  }

  /** The values in order of first occurrence: the reference order of the keys. */
  function Dedup(values: seq<string>): (r: seq<string>)
    ensures forall x :: x in r <==> x in values
  {
    if values == [] then []
    else
      var pre := Dedup(values[..|values| - 1]);
      var v := values[|values| - 1];
      assert values == values[..|values| - 1] + [v];
      if v in pre then pre else pre + [v]
  }

  predicate Distinct(xs: seq<string>)
  {
    forall i, j :: 0 <= i < j < |xs| ==> xs[i] != xs[j]
  }

  /** How many times `x` occurs among the values. */
  function Occurrences(values: seq<string>, x: string): nat
  {
    if values == [] then 0
    else Occurrences(values[..|values| - 1], x) + (if values[|values| - 1] == x then 1 else 0)
  }

  function Sum(entries: seq<Entry>): nat
  {
    if entries == [] then 0 else Sum(entries[..|entries| - 1]) + entries[|entries| - 1].count
  }

  lemma {:induction false} DedupDistinct(values: seq<string>)
    ensures Distinct(Dedup(values))
  {
    if values != [] {
      DedupDistinct(values[..|values| - 1]);
    }
  }

  /** Raising one count by one raises the sum by one. */
  lemma {:induction false} SumBumped(entries: seq<Entry>, k: nat, e: Entry)
    requires k < |entries| && e.count == entries[k].count + 1
    ensures Sum(entries[k := e]) == Sum(entries) + 1
  {
    var n := |entries| - 1;
    if k < n {
      assert entries[k := e][..n] == entries[..n][k := e];
      SumBumped(entries[..n], k, e);
    } else {
      assert entries[k := e][..n] == entries[..n];
    }
  }

  /** The facts each counting step keeps. */
  predicate Counts(values: seq<string>, entries: seq<Entry>)
  {
    Keys(entries) == Dedup(values)
    && (forall i :: 0 <= i < |entries| ==> entries[i].count == Occurrences(values, entries[i].key))
    && Sum(entries) == |values|
  }

  lemma BumpStep(values: seq<string>, entries: seq<Entry>, v: string)
    requires Counts(values, entries) && Distinct(Keys(entries))
    ensures Counts(values + [v], Bump(entries, v))
  {
    var vs := values + [v];
    assert vs[..|vs| - 1] == values;
    var after := Bump(entries, v);
    match IndexOf(entries, v)
    case Some(k) =>
      SumBumped(entries, k, Entry(v, entries[k].count + 1));
      assert Keys(after) == Keys(entries);
      forall i | 0 <= i < |after|
        ensures after[i].count == Occurrences(vs, after[i].key)
      {
        if i != k {
          assert Keys(entries)[i] != Keys(entries)[k];
        }
      }
    case None =>
      assert after[..|after| - 1] == entries;
      assert Keys(after) == Keys(entries) + [v];
      assert Occurrences(values, v) == 0 by {
        OccurrencesAbsent(values, v);
      }
  }

  lemma {:induction false} OccurrencesAbsent(values: seq<string>, x: string)
    requires x !in values
    ensures Occurrences(values, x) == 0
  {
    if values != [] {
      assert values == values[..|values| - 1] + [values[|values| - 1]];
      OccurrencesAbsent(values[..|values| - 1], x);
    }
  }

  /**
   * The tally's keys are the distinct values in order of first occurrence,
   * each count is that value's number of occurrences, and the counts add up
   * to the number of values.
   */
  lemma {:induction false} TallyCounts(values: seq<string>)
    ensures Keys(TallyOf(values)) == Dedup(values)
    ensures forall i :: 0 <= i < |TallyOf(values)| ==>
      TallyOf(values)[i].count == Occurrences(values, TallyOf(values)[i].key)
    ensures Sum(TallyOf(values)) == |values|
  {
    if values != [] {
      var pre := values[..|values| - 1];
      TallyCounts(pre);
      DedupDistinct(pre);
      assert values == pre + [values[|values| - 1]];
      BumpStep(pre, TallyOf(pre), values[|values| - 1]);
    }
  }

  /** A tally is empty exactly when there was nothing to count. */
  lemma TallyEmpty(values: seq<string>)
    ensures TallyOf(values) == [] <==> values == []
  {
    TallyCounts(values);
    if values != [] {
      assert values[0] in Dedup(values);
    }
  }

  function FileTypes(files: seq<TrainingFile>): (ts: seq<string>)
    ensures |ts| == |files| && forall i :: 0 <= i < |files| ==> ts[i] == files[i].fileType
  {
    seq(|files|, i requires 0 <= i < |files| => files[i].fileType)
  }

  function Statuses(files: seq<TrainingFile>): (ss: seq<string>)
    ensures |ss| == |files| && forall i :: 0 <= i < |files| ==> ss[i] == files[i].status
  {
    seq(|files|, i requires 0 <= i < |files| => files[i].status)
  }

  /** What the overview draws: the file count and each chart's data when there is any. */
  datatype Overview = Overview(totalFiles: nat, typeChart: Option<seq<Entry>>, statusChart: Option<seq<Entry>>)

  method RenderOverview(files: seq<TrainingFile>) returns (view: Overview)
    ensures view.totalFiles == |files|
    ensures view.typeChart.Some? <==> |files| > 0
    ensures view.statusChart.Some? <==> |files| > 0
    ensures view.typeChart.Some? ==> view.typeChart.value == TallyOf(FileTypes(files))
    ensures view.statusChart.Some? ==> view.statusChart.value == TallyOf(Statuses(files))
  {
    var fileTypes := Tally(FileTypes(files));
    var statusCounts := Tally(Statuses(files));
    TallyEmpty(FileTypes(files));
    TallyEmpty(Statuses(files));
    view := Overview(|files|,
      if fileTypes != [] then Some(fileTypes) else None,
      if statusCounts != [] then Some(statusCounts) else None);
  }
}
