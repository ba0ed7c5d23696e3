/** The data side of the bar plots: the display name of each algorithm, and
    the three parallel columns (number of drones, algorithm, metric) each
    plot's data frame is built from, one row per run. */
module BarplotSplit {
  import opened PyDicts
  import opened DataElaboration

  /** `parse_algorithm_name`: the label an algorithm is shown under. */
  function ParseAlgorithmName(algorithm: string, longParse: bool): string
  {
    if algorithm == "GEO" then "C2S"
    else if algorithm == "RND" then "Random"
    else if algorithm == "FEQR" && longParse then "Fully-Echoed Q-Routing"
    else if algorithm == "QL" && longParse then "Q-Learning"
    else if algorithm == "UCBQL" && longParse then "UCB Q-Learning"
    else if algorithm == "DBQL" && longParse then "Distance-Based Q-Learning"
    else if algorithm == "NONE" then "None"
    else algorithm
  }

  /** GEO, RND and NONE are renamed whichever form is asked for. */
  lemma RenamedAlways(longParse: bool)
    ensures ParseAlgorithmName("GEO", longParse) == "C2S"
    ensures ParseAlgorithmName("RND", longParse) == "Random"
    ensures ParseAlgorithmName("NONE", longParse) == "None"
  {
  }

  /** The learning policies get their long names only in the long form. */
  lemma LongNamesOnlyWhenAsked()
    ensures ParseAlgorithmName("FEQR", true) == "Fully-Echoed Q-Routing"
    ensures ParseAlgorithmName("QL", true) == "Q-Learning"
    ensures ParseAlgorithmName("UCBQL", true) == "UCB Q-Learning"
    ensures ParseAlgorithmName("DBQL", true) == "Distance-Based Q-Learning"
    ensures forall a :: a in {"FEQR", "QL", "UCBQL", "DBQL"} ==> ParseAlgorithmName(a, false) == a
  {
  }

  /** In the short form a name is kept exactly when it is not one of the
      three renamed ones. */
  lemma ShortFormKeepsAllButThree(a: string)
    ensures ParseAlgorithmName(a, false) == a <==> a !in {"GEO", "RND", "NONE"}
  {
  }

  /** A name that is none of the seven known ones is kept in both forms. */
  lemma UnknownKept(a: string, longParse: bool)
    requires a !in {"GEO", "RND", "FEQR", "QL", "UCBQL", "DBQL", "NONE"}
    ensures ParseAlgorithmName(a, longParse) == a
  {
  }

  // ---------------------------------------------------------------------
  // The rows of a bar plot

  /** The three columns of a plot's data frame. */
  datatype Frame = Frame(drones: seq<int>, algorithms: seq<string>, values: seq<real>)

  function Append(a: Frame, b: Frame): Frame
  {
    Frame(a.drones + b.drones, a.algorithms + b.algorithms, a.values + b.values)
  }

  /** The rows contributed by the list `vs` of setting `s`. */
  function RowsOf(s: Setting, vs: seq<real>): (f: Frame)
    ensures |f.drones| == |vs| && |f.algorithms| == |vs| && f.values == vs
    ensures forall j :: 0 <= j < |vs| ==>
      f.drones[j] == s.nDrones && f.algorithms[j] == ParseAlgorithmName(s.algorithm, false)
    decreases |vs|
  {
    if vs == [] then Frame([], [], [])
    else
      var init := vs[..|vs| - 1];
      assert vs == init + [vs[|vs| - 1]];
      Append(RowsOf(s, init), Frame([s.nDrones], [ParseAlgorithmName(s.algorithm, false)], [vs[|vs| - 1]]))
  }

  /** One more value of a list is one more row at the end. */
  lemma RowsOfSnoc(s: Setting, vs: seq<real>, j: nat)
    requires j < |vs|
    ensures RowsOf(s, vs[..j + 1])
      == Append(RowsOf(s, vs[..j]), Frame([s.nDrones], [ParseAlgorithmName(s.algorithm, false)], [vs[j]]))
  {
    assert vs[..j + 1][..j] == vs[..j];
  }

  /** The rows of every setting of `order`, in that order. */
  function Flatten(order: seq<Setting>, entries: map<Setting, seq<real>>): Frame
    requires forall i :: 0 <= i < |order| ==> order[i] in entries
    decreases |order|
  {
    if order == [] then Frame([], [], [])
    else
      var s := order[|order| - 1];
      Append(Flatten(order[..|order| - 1], entries), RowsOf(s, entries[s]))
  }

  /** The row-building loops shared by `barplot_packet_delivery_ratio`,
      `barplot_packet_delivery_time` and `barplot_number_relays`: for every
      setting, in dictionary order, one row per value of its list. */
  method BuildFrame(d: Dict<Setting, seq<real>>) returns (f: Frame)
    requires d.Valid()
    ensures f == Flatten(d.order, d.entries)
  {
    var drones: seq<int> := [];
    var algorithms: seq<string> := [];
    var values: seq<real> := [];
    var i := 0;
    while i < |d.order|
      invariant 0 <= i <= |d.order|
      invariant Frame(drones, algorithms, values) == Flatten(d.order[..i], d.entries)
    {
      assert d.order[..i + 1][..i] == d.order[..i];
      var key := d.order[i];
      drones, algorithms, values := AddRows(drones, algorithms, values, key, d.entries[key]);
      i := i + 1;
    }
    assert d.order[..i] == d.order;
    f := Frame(drones, algorithms, values);
  }

  /** The inner loop of the builders: one row per value of `vs`, appended
      to the columns built so far. */
  method AddRows(drones: seq<int>, algorithms: seq<string>, values: seq<real>, s: Setting, vs: seq<real>)
    returns (drones': seq<int>, algorithms': seq<string>, values': seq<real>)
    ensures Frame(drones', algorithms', values') == Append(Frame(drones, algorithms, values), RowsOf(s, vs))
  {
    drones', algorithms', values' := drones, algorithms, values;
    var parsed := ParseAlgorithmName(s.algorithm, false);
    var j := 0;
    while j < |vs|
      invariant 0 <= j <= |vs|
      invariant Frame(drones', algorithms', values') == Append(Frame(drones, algorithms, values), RowsOf(s, vs[..j]))
    {
      RowsOfSnoc(s, vs, j);
      drones' := drones' + [s.nDrones];
      algorithms' := algorithms' + [parsed];
      values' := values' + [vs[j]];
      j := j + 1;
    }
    assert vs[..j] == vs;
  }

  /** The three columns grow in lockstep and end with one row per value
      of the dictionary. */
  lemma {:induction false} FrameLockstep(order: seq<Setting>, entries: map<Setting, seq<real>>)
    requires forall i :: 0 <= i < |order| ==> order[i] in entries
    ensures var f := Flatten(order, entries);
      |f.drones| == |f.values| && |f.algorithms| == |f.values| && |f.values| == TotalLength(order, entries)
    decreases |order|
  {
    if order != [] {
      FrameLockstep(order[..|order| - 1], entries);
    }
  }

  /** Where a value lands: value `j` of the setting at position `i` is
      the row after all rows of the settings before it, next to that
      setting's number of drones and short algorithm name. */
  lemma {:induction false} RowPosition(order: seq<Setting>, entries: map<Setting, seq<real>>, i: nat, j: nat)
    requires forall k :: 0 <= k < |order| ==> order[k] in entries
    requires i < |order| && j < |entries[order[i]]|
    ensures var f := Flatten(order, entries);
      var r := TotalLength(order[..i], entries) + j;
      && r < |f.values| && r < |f.drones| && r < |f.algorithms|
      && f.values[r] == entries[order[i]][j]
      && f.drones[r] == order[i].nDrones
      && f.algorithms[r] == ParseAlgorithmName(order[i].algorithm, false)
    decreases |order|
  {
    var init := order[..|order| - 1];
    var f0 := Flatten(init, entries);
    var rows := RowsOf(order[|order| - 1], entries[order[|order| - 1]]);
    assert Flatten(order, entries) == Append(f0, rows);
    FrameLockstep(init, entries);
    if i == |order| - 1 {
      assert order[..i] == init;
      var r := |f0.values| + j;
      assert Append(f0, rows).algorithms[r] == rows.algorithms[j];
    } else {
      RowPosition(init, entries, i, j);
      assert init[..i] == order[..i];
      TotalPrefix(init, entries, i);
      var r := TotalLength(order[..i], entries) + j;
      assert Append(f0, rows).algorithms[r] == f0.algorithms[r];
    }
  }

  /** The rows of a prefix are no more than the rows of the whole. */
  lemma {:induction false} TotalPrefix(order: seq<Setting>, entries: map<Setting, seq<real>>, i: nat)
    requires forall k :: 0 <= k < |order| ==> order[k] in entries
    requires i <= |order|
    ensures TotalLength(order[..i], entries) <= TotalLength(order, entries)
    decreases |order|
  {
    if i < |order| {
      TotalPrefix(order[..|order| - 1], entries, i);
      assert order[..|order| - 1][..i] == order[..i];
    } else {
      assert order[..i] == order;
    }
  }

  /** Fed with `dict_times`, `dict_ratios` or `dict_relays`, a plot has
      exactly one row per run of the table. */
  lemma RowPerRun(data: Dict<RunKey, Metrics>)
    requires data.Valid()
    ensures var g := Grouped(data.order, data.entries);
      && g.times.Valid() && g.ratios.Valid() && g.relays.Valid()
      && |Flatten(g.times.order, g.times.entries).values| == |data.order|
      && |Flatten(g.ratios.order, g.ratios.entries).values| == |data.order|
      && |Flatten(g.relays.order, g.relays.entries).values| == |data.order|
  {
    TotalIsRunCount(data.order, data.entries);
    var g := Grouped(data.order, data.entries);
    FrameLockstep(g.times.order, g.times.entries);
    FrameLockstep(g.ratios.order, g.ratios.entries);
    FrameLockstep(g.relays.order, g.relays.entries);
  }
}
