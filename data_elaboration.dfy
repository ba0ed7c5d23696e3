/** The aggregation step behind the plots: every simulation run reports,
    under its number of drones, routing algorithm and seed, a mean packet
    delivery time, a delivery ratio and a mean number of relays. Runs are
    keyed, grouped by (number of drones, algorithm) with the ratio clamped
    to 1, and summarised per group by mean and standard deviation. */
module DataElaboration {
  import opened Common
  import opened PyDicts

  /** The key of one run in the table of results. */
  datatype RunKey = RunKey(nDrones: int, algorithm: string, seed: int)

  /** The three metrics a run reports. */
  datatype Metrics = Metrics(deliveryTime: real, deliveryRatio: real, relays: real)

  /** One decoded line of a result file; `routingAlgorithm` is the enum
      member's qualified name, such as "RoutingAlgorithm.FEQR". */
  datatype RunRecord = RunRecord(nDrones: int, routingAlgorithm: string, seed: int, metrics: Metrics)

  /** A setting of the campaign: a number of drones and an algorithm. */
  datatype Setting = Setting(nDrones: int, algorithm: string)

  // ---------------------------------------------------------------------
  // `str.split(".")`

  /** The fields of `s` between dots, as `s.split(".")` returns them. */
  function Fields(s: string): (fs: seq<string>)
    ensures |fs| >= 1
    ensures forall i :: 0 <= i < |fs| ==> '.' !in fs[i]
  {
    if s == [] then [[]]
    else
      var rest := Fields(s[1..]);
      if s[0] == '.' then [[]] + rest else [[s[0]] + rest[0]] + rest[1..]
  }

  /** `".".join(fs)`. */
  function Join(fs: seq<string>): string
    requires |fs| >= 1
  {
    if |fs| == 1 then fs[0] else fs[0] + "." + Join(fs[1..])
  }

  /** Splitting and joining again gives back the string. */
  lemma {:induction false} JoinFields(s: string)
    ensures Join(Fields(s)) == s
  {
    if s != [] {
      var rest := Fields(s[1..]);
      JoinFields(s[1..]);
      if s[0] == '.' {
        assert Fields(s)[1..] == rest;
        assert Join(Fields(s)) == [] + "." + Join(rest);
        assert s == "." + s[1..];
      } else if |rest| == 1 {
        assert Join(Fields(s)) == [s[0]] + s[1..];
        assert s == [s[0]] + s[1..];
      } else {
        var fs := Fields(s);
        assert fs[1..] == rest[1..];
        assert Join(fs) == [s[0]] + (rest[0] + "." + Join(rest[1..]));
        assert s == [s[0]] + s[1..];
      }
    }
  }

  /** A dot-free prefix joins the first field. */
  lemma {:induction false} FieldsPrefix(a: string, t: string)
    requires '.' !in a
    ensures Fields(a + t) == [a + Fields(t)[0]] + Fields(t)[1..]
  {
    if a != [] {
      FieldsPrefix(a[1..], t);
      assert (a + t)[1..] == a[1..] + t;
      assert (a + t)[0] == a[0];
      assert [a[0]] + (a[1..] + Fields(t)[0]) == a + Fields(t)[0];
    } else {
      var ft := Fields(t);
      assert a + t == t && a + ft[0] == ft[0];
      assert ft == [ft[0]] + ft[1..];
    }
  }

  /** Splitting fields joined by dots gives back the fields. */
  lemma {:induction false} FieldsOfJoin(fs: seq<string>)
    requires |fs| >= 1 && forall i :: 0 <= i < |fs| ==> '.' !in fs[i]
    ensures Fields(Join(fs)) == fs
  {
    if |fs| == 1 {
      FieldsPrefix(fs[0], []);
      assert fs[0] + [] == fs[0];
    } else {
      FieldsOfJoin(fs[1..]);
      var t := "." + Join(fs[1..]);
      FieldsPrefix(fs[0], t);
      assert t[1..] == Join(fs[1..]);
      assert Fields(t) == [[]] + fs[1..];
      assert fs[0] + t == Join(fs);
      assert fs[0] + [] == fs[0];
    }
  }

  /** A string splits into more than one field exactly when it holds a dot. */
  lemma {:induction false} FieldsCount(s: string)
    ensures |Fields(s)| >= 2 <==> '.' in s
  {
    if s == [] {
    } else if '.' !in s {
      FieldsPrefix(s, []);
      assert s + [] == s;
    } else if s[0] != '.' {
      FieldsCount(s[1..]);
      assert '.' in s[1..];
    }
  }

  /** `routing_algorithm.split(".")[1]`; `None` stands for the IndexError
      a name without a dot raises. */
  function AlgorithmName(routingAlgorithm: string): (name: Option<string>)
    ensures name.None? <==> '.' !in routingAlgorithm
    ensures name.Some? ==> '.' !in name.value
  {
    FieldsCount(routingAlgorithm);
    var fs := Fields(routingAlgorithm);
    if |fs| < 2 then None else Some(fs[1])
  }

  /** The algorithm read from a dot-joined name is its second field. */
  lemma QualifiedName(fs: seq<string>)
    requires |fs| >= 2 && forall i :: 0 <= i < |fs| ==> '.' !in fs[i]
    ensures AlgorithmName(Join(fs)) == Some(fs[1])
  {
    FieldsOfJoin(fs);
  }

  /** The name an enum member of the simulator is stored under. */
  lemma EnumMemberName()
    ensures AlgorithmName("RoutingAlgorithm.FEQR") == Some("FEQR")
  {
    var fs := ["RoutingAlgorithm", "FEQR"];
    QualifiedName(fs);
    assert Join(fs) == "RoutingAlgorithm.FEQR";
  }

  // ---------------------------------------------------------------------
  // `read_json_directory`: the table of runs

  function KeyOf(r: RunRecord): Option<RunKey>
  {
    match AlgorithmName(r.routingAlgorithm)
    case None => None
    case Some(algo) => Some(RunKey(r.nDrones, algo, r.seed))
  }

  /** The table after the given records, in reading order; `None` once a
      record's algorithm has no dot. */
  function Collected(records: seq<RunRecord>): Option<Dict<RunKey, Metrics>>
    decreases |records|
  {
    if records == [] then Some(Empty())
    else
      match Collected(records[..|records| - 1])
      case None => None
      case Some(d) =>
        var last := records[|records| - 1];
        match KeyOf(last)
        case None => None
        case Some(k) => Some(d.Put(k, last.metrics))
  }

  /** The table read is a well-formed dictionary. */
  lemma {:induction false} CollectedValid(records: seq<RunRecord>)
    ensures Collected(records).Some? ==> Collected(records).value.Valid()
    decreases |records|
  {
    if records != [] {
      CollectedValid(records[..|records| - 1]);
    }
  }

  /** Reading fails exactly when some record names its algorithm without a
      dot. */
  lemma {:induction false} CollectedFails(records: seq<RunRecord>)
    ensures Collected(records).None? <==> exists i :: 0 <= i < |records| && KeyOf(records[i]).None?
    decreases |records|
  {
    if records != [] {
      var init := records[..|records| - 1];
      CollectedFails(init);
      assert forall i :: 0 <= i < |init| ==> init[i] == records[i];
      if Collected(records).None? && Collected(init).Some? {
        assert KeyOf(records[|records| - 1]).None?;
      }
    }
  }

  /** The position of the last record with key `k`, or -1 when none has it. */
  function LastIndex(records: seq<RunRecord>, k: RunKey): (i: int)
    ensures -1 <= i < |records|
    ensures i >= 0 ==> KeyOf(records[i]) == Some(k)
    ensures forall j :: i < j < |records| ==> KeyOf(records[j]) != Some(k)
    decreases |records|
  {
    if records == [] then -1
    else if KeyOf(records[|records| - 1]) == Some(k) then |records| - 1
    else LastIndex(records[..|records| - 1], k)
  }

  /** The position of the first record with key `k`, or -1 when none has it. */
  function FirstIndex(records: seq<RunRecord>, k: RunKey): (i: int)
    ensures -1 <= i < |records|
    ensures i >= 0 ==> KeyOf(records[i]) == Some(k)
    ensures forall j :: 0 <= j < |records| && KeyOf(records[j]) == Some(k) ==> 0 <= i <= j
    decreases |records|
  {
    if records == [] then -1
    else
      var i := FirstIndex(records[..|records| - 1], k);
      if i >= 0 then i
      else if KeyOf(records[|records| - 1]) == Some(k) then |records| - 1
      else -1
  }

  /** The table lists its keys in the order in which they first occur: a
      key read again keeps the place of its first line. */
  lemma {:induction false} FirstSeenOrder(records: seq<RunRecord>)
    requires Collected(records).Some?
    ensures var d := Collected(records).value;
      && (forall k :: k in d.entries <==> FirstIndex(records, k) >= 0)
      && (forall j1, j2 :: 0 <= j1 < j2 < |d.order| ==>
            FirstIndex(records, d.order[j1]) < FirstIndex(records, d.order[j2]))
    decreases |records|
  {
    if records != [] {
      var init := records[..|records| - 1];
      var last := |records| - 1;
      FirstSeenOrder(init);
      CollectedValid(init);
      var d0 := Collected(init).value;
      var d := Collected(records).value;
      var k := KeyOf(records[last]).value;
      assert d == d0.Put(k, records[last].metrics);
      forall j | 0 <= j < |d0.order|
        ensures FirstIndex(records, d0.order[j]) == FirstIndex(init, d0.order[j]) < last
      {
        assert d0.order[j] in d0.entries;
      }
      if k !in d0.entries {
        assert FirstIndex(records, k) == last;
      }
    }
  }

  /** The table has an entry for exactly the keys some record carries, and
      it holds the metrics of the last such record: a later line overwrites
      an earlier one. */
  lemma {:induction false} LastRecordWins(records: seq<RunRecord>)
    requires Collected(records).Some?
    ensures var d := Collected(records).value;
      forall k :: (k in d.entries <==> LastIndex(records, k) >= 0)
                  && (k in d.entries ==> d.entries[k] == records[LastIndex(records, k)].metrics)
    decreases |records|
  {
    if records != [] {
      var init := records[..|records| - 1];
      var last := |records| - 1;
      LastRecordWins(init);
      var d := Collected(records).value;
      var d0 := Collected(init).value;
      var k := KeyOf(records[last]).value;
      assert d.entries == d0.entries[k := records[last].metrics];
      forall k': RunKey
        ensures (k' in d.entries <==> LastIndex(records, k') >= 0)
        ensures k' in d.entries ==> d.entries[k'] == records[LastIndex(records, k')].metrics
      {
        if k' != k {
          var i := LastIndex(init, k');
          assert LastIndex(records, k') == i;
          if i >= 0 {
            assert records[i] == init[i];
          }
        }
      }
    }
  }

  /** The per-record loop of `read_json_directory`, over records already
      decoded from the files. */
  method ReadRecords(records: seq<RunRecord>) returns (data: Option<Dict<RunKey, Metrics>>)
    ensures data == Collected(records)
  {
    var d: Dict<RunKey, Metrics> := Empty();
    var i := 0;
    while i < |records|
      invariant 0 <= i <= |records|
      invariant Collected(records[..i]) == Some(d)
    {
      assert records[..i + 1][..i] == records[..i];
      var r := records[i];
      var algo := AlgorithmName(r.routingAlgorithm);
      if algo.None? {
        FailureSticks(records, i + 1);
        return None;
      }
      d := d.Put(RunKey(r.nDrones, algo.value, r.seed), r.metrics);
      i := i + 1;
    }
    assert records[..i] == records;
    return Some(d);
  }

  lemma {:induction false} FailureSticks(records: seq<RunRecord>, k: nat)
    requires k <= |records| && Collected(records[..k]).None?
    ensures Collected(records).None?
    decreases |records| - k
  {
    if k < |records| {
      assert records[..k + 1][..k] == records[..k];
      FailureSticks(records, k + 1);
    } else {
      assert records[..k] == records;
    }
  }

  // ---------------------------------------------------------------------
  // `compute_data_avg_std`: grouping

  /** A delivery ratio above 1 counts as 1. */
  function Clamp(ratio: real): (c: real)
    ensures c <= 1.0
    ensures ratio <= 1.0 ==> c == ratio
    ensures ratio > 1.0 ==> c == 1.0
  {
    if ratio > 1.0 then 1.0 else ratio
  }

  /** `dict_times`, `dict_ratios` and `dict_relays`. */
  datatype Groups = Groups(times: Dict<Setting, seq<real>>, ratios: Dict<Setting, seq<real>>,
                           relays: Dict<Setting, seq<real>>)

  /** The three dictionaries list the same settings in the same order. */
  ghost predicate Aligned(g: Groups)
  {
    Alike(g.times, g.ratios) && Alike(g.times, g.relays)
  }

  /** Aligned, well formed, and holding non-empty lists of equal length
      under each setting. */
  ghost predicate Consistent(g: Groups)
  {
    && g.times.Valid() && Aligned(g)
    && forall s :: s in g.times.entries ==>
         && |g.times.entries[s]| > 0
         && |g.ratios.entries[s]| == |g.times.entries[s]|
         && |g.relays.entries[s]| == |g.times.entries[s]|
  }

  function SettingOf(k: RunKey): Setting
  {
    Setting(k.nDrones, k.algorithm)
  }

  /** One pass of the grouping loop: a new setting gets three one-element
      lists, a known one an entry appended to each. */
  function AddRun(g: Groups, k: RunKey, m: Metrics): (r: Groups)
    requires Aligned(g)
    ensures Aligned(r)
  {
    var s := SettingOf(k);
    var ratio := Clamp(m.deliveryRatio);
    if s !in g.times.entries then
      PutAlike(g.times, g.ratios, s, [m.deliveryTime], [ratio]);
      PutAlike(g.times, g.relays, s, [m.deliveryTime], [m.relays]);
      Groups(g.times.Put(s, [m.deliveryTime]), g.ratios.Put(s, [ratio]), g.relays.Put(s, [m.relays]))
    else
      var times, ratios, relays := g.times.entries[s] + [m.deliveryTime], g.ratios.entries[s] + [ratio],
                                   g.relays.entries[s] + [m.relays];
      PutAlike(g.times, g.ratios, s, times, ratios);
      PutAlike(g.times, g.relays, s, times, relays);
      Groups(g.times.Put(s, times), g.ratios.Put(s, ratios), g.relays.Put(s, relays))
  }

  /** The grouping of the runs `ks`, visited in order. */
  function Grouped(ks: seq<RunKey>, data: map<RunKey, Metrics>): (g: Groups)
    requires forall i :: 0 <= i < |ks| ==> ks[i] in data
    ensures Aligned(g)
    decreases |ks|
  {
    if ks == [] then Groups(Empty(), Empty(), Empty())
    else AddRun(Grouped(ks[..|ks| - 1], data), ks[|ks| - 1], data[ks[|ks| - 1]])
  }

  /** The three dictionaries grow in lockstep: same settings, same order,
      lists of equal length and never empty. */
  lemma {:induction false} GroupedConsistent(ks: seq<RunKey>, data: map<RunKey, Metrics>)
    requires forall i :: 0 <= i < |ks| ==> ks[i] in data
    ensures Consistent(Grouped(ks, data))
    decreases |ks|
  {
    if ks != [] {
      var g := Grouped(ks[..|ks| - 1], data);
      GroupedConsistent(ks[..|ks| - 1], data);
      var k := ks[|ks| - 1];
      var m := data[k];
      var s := SettingOf(k);
      if s !in g.times.entries {
        PutAll(g, s, [m.deliveryTime], [Clamp(m.deliveryRatio)], [m.relays]);
      } else {
        PutAll(g, s, g.times.entries[s] + [m.deliveryTime], g.ratios.entries[s] + [Clamp(m.deliveryRatio)],
               g.relays.entries[s] + [m.relays]);
      }
    }
  }

  /** Storing lists of one length under the same setting of all three
      dictionaries keeps them consistent. */
  lemma PutAll(g: Groups, s: Setting, t: seq<real>, a: seq<real>, l: seq<real>)
    requires Consistent(g)
    requires |t| > 0 && |a| == |t| && |l| == |t|
    ensures Consistent(Groups(g.times.Put(s, t), g.ratios.Put(s, a), g.relays.Put(s, l)))
  {
    PutAlike(g.times, g.ratios, s, t, a);
    PutAlike(g.times, g.relays, s, t, l);
    var r := Groups(g.times.Put(s, t), g.ratios.Put(s, a), g.relays.Put(s, l));
    forall s' | s' in r.times.entries
      ensures |r.times.entries[s']| > 0
      ensures |r.ratios.entries[s']| == |r.times.entries[s']|
      ensures |r.relays.entries[s']| == |r.times.entries[s']|
    {
      if s' != s {
        assert r.times.entries[s'] == g.times.entries[s'];
        assert r.ratios.entries[s'] == g.ratios.entries[s'];
        assert r.relays.entries[s'] == g.relays.entries[s'];
      }
    }
  }

  /** The grouping loop of `compute_data_avg_std`, over the table of runs. */
  method GroupBySetting(data: Dict<RunKey, Metrics>) returns (g: Groups)
    requires data.Valid()
    ensures g == Grouped(data.order, data.entries)
  {
    var times: Dict<Setting, seq<real>> := Empty();
    var ratios: Dict<Setting, seq<real>> := Empty();
    var relays: Dict<Setting, seq<real>> := Empty();
    var i := 0;
    while i < |data.order|
      invariant 0 <= i <= |data.order|
      invariant Groups(times, ratios, relays) == Grouped(data.order[..i], data.entries)
    {
      assert data.order[..i + 1][..i] == data.order[..i];
      var k := data.order[i];
      var m := data.entries[k];
      var ratio := m.deliveryRatio;
      if ratio > 1.0 {
        ratio := 1.0;
      }
      var s := Setting(k.nDrones, k.algorithm);
      if s !in times.entries {
        times := times.Put(s, [m.deliveryTime]);
        ratios := ratios.Put(s, [ratio]);
        relays := relays.Put(s, [m.relays]);
      } else {
        times := times.Put(s, times.entries[s] + [m.deliveryTime]);
        ratios := ratios.Put(s, ratios.entries[s] + [ratio]);
        relays := relays.Put(s, relays.entries[s] + [m.relays]);
      }
      i := i + 1;
    }
    assert data.order[..i] == data.order;
    g := Groups(times, ratios, relays);
  }

  /** The metrics of the runs of `ks` in setting `s`, in visiting order. */
  function Select(ks: seq<RunKey>, data: map<RunKey, Metrics>, s: Setting): (ms: seq<Metrics>)
    requires forall i :: 0 <= i < |ks| ==> ks[i] in data
    ensures |ms| <= |ks|
    decreases |ks|
  {
    if ks == [] then []
    else
      var k := ks[|ks| - 1];
      var init := Select(ks[..|ks| - 1], data, s);
      if SettingOf(k) == s then init + [data[k]] else init
  }

  function TimeOf(m: Metrics): real { m.deliveryTime }
  function RatioOf(m: Metrics): real { Clamp(m.deliveryRatio) }
  function RelaysOf(m: Metrics): real { m.relays }

  /** One metric of each run of a list. */
  function Column(ms: seq<Metrics>, f: Metrics -> real): (c: seq<real>)
    ensures |c| == |ms| && forall i :: 0 <= i < |ms| ==> c[i] == f(ms[i])
  {
    seq(|ms|, i requires 0 <= i < |ms| => f(ms[i]))
  }

  /** What the grouping holds: a setting is present exactly when some run
      has it, and its three lists are that setting's times, clamped ratios
      and relay counts in visiting order, one entry per run. */
  lemma {:induction false} GroupContents(ks: seq<RunKey>, data: map<RunKey, Metrics>, s: Setting)
    requires forall i :: 0 <= i < |ks| ==> ks[i] in data
    ensures var g := Grouped(ks, data);
      var ms := Select(ks, data, s);
      && (s in g.times.entries <==> ms != [])
      && (s in g.times.entries ==>
            && g.times.entries[s] == Column(ms, TimeOf)
            && g.ratios.entries[s] == Column(ms, RatioOf)
            && g.relays.entries[s] == Column(ms, RelaysOf))
    decreases |ks|
  {
    if ks != [] {
      var init := ks[..|ks| - 1];
      var k := ks[|ks| - 1];
      GroupContents(init, data, s);
      var g0 := Grouped(init, data);
      var ms0 := Select(init, data, s);
      if SettingOf(k) == s {
        ColumnSnoc(ms0, data[k], TimeOf);
        ColumnSnoc(ms0, data[k], RatioOf);
        ColumnSnoc(ms0, data[k], RelaysOf);
        if s !in g0.times.entries {
          assert ms0 == [];
          assert Column([data[k]], TimeOf) == [data[k].deliveryTime];
          assert Column([data[k]], RatioOf) == [Clamp(data[k].deliveryRatio)];
          assert Column([data[k]], RelaysOf) == [data[k].relays];
        }
      }
    }
  }

  lemma ColumnSnoc(ms: seq<Metrics>, m: Metrics, f: Metrics -> real)
    ensures Column(ms + [m], f) == Column(ms, f) + [f(m)]
  {
    assert |Column(ms + [m], f)| == |Column(ms, f) + [f(m)]|;
    forall i | 0 <= i < |ms| + 1
      ensures Column(ms + [m], f)[i] == (Column(ms, f) + [f(m)])[i]
    {
      if i < |ms| {
        assert (ms + [m])[i] == ms[i];
      }
    }
  }

  /** The total length of the lists of a dictionary, over its keys. */
  function TotalLength(order: seq<Setting>, entries: map<Setting, seq<real>>): (n: nat)
    requires forall i :: 0 <= i < |order| ==> order[i] in entries
    decreases |order|
  {
    if order == [] then 0
    else TotalLength(order[..|order| - 1], entries) + |entries[order[|order| - 1]]|
  }

  /** The lists of each dictionary hold one entry per run grouped. */
  lemma TotalIsRunCount(ks: seq<RunKey>, data: map<RunKey, Metrics>)
    requires forall i :: 0 <= i < |ks| ==> ks[i] in data
    ensures var g := Grouped(ks, data);
      && g.times.Valid() && g.ratios.Valid() && g.relays.Valid()
      && TotalLength(g.times.order, g.times.entries) == |ks|
      && TotalLength(g.ratios.order, g.ratios.entries) == |ks|
      && TotalLength(g.relays.order, g.relays.entries) == |ks|
  {
    GroupedConsistent(ks, data);
    var g := Grouped(ks, data);
    AlikeValid(g.times, g.ratios);
    AlikeValid(g.times, g.relays);
    TimesTotal(ks, data);
    TotalFrame(g.times.order, g.times.entries, g.ratios.entries);
    TotalFrame(g.times.order, g.times.entries, g.relays.entries);
  }

  /** Each run adds one delivery time to the lists of `dict_times`. */
  lemma {:induction false} TimesTotal(ks: seq<RunKey>, data: map<RunKey, Metrics>)
    requires forall i :: 0 <= i < |ks| ==> ks[i] in data
    ensures var g := Grouped(ks, data);
      g.times.Valid() && TotalLength(g.times.order, g.times.entries) == |ks|
    decreases |ks|
  {
    if ks != [] {
      var init := ks[..|ks| - 1];
      TimesTotal(init, data);
      var g0 := Grouped(init, data);
      var k := ks[|ks| - 1];
      var m := data[k];
      var s := SettingOf(k);
      var times := Grouped(ks, data).times;
      if s !in g0.times.entries {
        assert times == g0.times.Put(s, [m.deliveryTime]);
        TotalOfNewKey(g0.times, s, [m.deliveryTime]);
      } else {
        assert times == g0.times.Put(s, g0.times.entries[s] + [m.deliveryTime]);
        TotalOfAppend(g0.times, s, m.deliveryTime);
      }
    }
  }

  lemma TotalOfNewKey(d: Dict<Setting, seq<real>>, s: Setting, v: seq<real>)
    requires d.Valid() && s !in d.entries
    ensures var d' := d.Put(s, v);
      TotalLength(d'.order, d'.entries) == TotalLength(d.order, d.entries) + |v|
  {
    var d' := d.Put(s, v);
    assert d'.order[..|d'.order| - 1] == d.order;
    TotalFrame(d.order, d.entries, d'.entries);
  }

  lemma TotalOfAppend(d: Dict<Setting, seq<real>>, s: Setting, x: real)
    requires d.Valid() && s in d.entries
    ensures var d' := d.Put(s, d.entries[s] + [x]);
      TotalLength(d'.order, d'.entries) == TotalLength(d.order, d.entries) + 1
  {
    var i :| 0 <= i < |d.order| && d.order[i] == s;
    TotalBump(d.order, d.entries, i, x);
  }

  /** The total only reads the lengths of the lists of the listed keys. */
  lemma {:induction false} TotalFrame(order: seq<Setting>, e1: map<Setting, seq<real>>, e2: map<Setting, seq<real>>)
    requires forall i :: 0 <= i < |order| ==> order[i] in e1 && order[i] in e2 && |e1[order[i]]| == |e2[order[i]]|
    ensures TotalLength(order, e1) == TotalLength(order, e2)
    decreases |order|
  {
    if order != [] {
      TotalFrame(order[..|order| - 1], e1, e2);
    }
  }

  /** One more value under a key listed once adds one to the total. */
  lemma {:induction false} TotalBump(order: seq<Setting>, e: map<Setting, seq<real>>, i: nat, x: real)
    requires i < |order| && forall j :: 0 <= j < |order| ==> order[j] in e
    requires forall j :: 0 <= j < |order| && j != i ==> order[j] != order[i]
    ensures TotalLength(order, e[order[i] := e[order[i]] + [x]]) == TotalLength(order, e) + 1
    decreases |order|
  {
    var s := order[i];
    var e' := e[s := e[s] + [x]];
    var init := order[..|order| - 1];
    if i == |order| - 1 {
      TotalFrame(init, e, e');
    } else {
      TotalBump(init, e, i, x);
    }
  }

  // ---------------------------------------------------------------------
  // `compute_data_avg_std`: statistics

  function Sum(s: seq<real>): real
    decreases |s|
  {
    if s == [] then 0.0 else Sum(s[..|s| - 1]) + s[|s| - 1]
  }

  /** `numpy.mean` of a non-empty list. */
  function Mean(s: seq<real>): real
    requires |s| > 0
  {
    Sum(s) / |s| as real
  }

  /** `numpy.std`, the population standard deviation; the square root is a
      parameter. */
  function Std(s: seq<real>, sqrt: real -> real): real
    requires |s| > 0
  {
    sqrt(Mean(SquaredDeviations(s, Mean(s))))
  }

  function SquaredDeviations(s: seq<real>, m: real): (d: seq<real>)
    ensures |d| == |s|
  {
    seq(|s|, i requires 0 <= i < |s| => (s[i] - m) * (s[i] - m))
  }

  /** The variance under the square root is never negative, so `numpy.std`
      always takes the root of a non-negative number. */
  lemma VarianceNonNegative(s: seq<real>)
    requires |s| > 0
    ensures Mean(SquaredDeviations(s, Mean(s))) >= 0.0
  {
    var d := SquaredDeviations(s, Mean(s));
    forall i | 0 <= i < |d| ensures d[i] >= 0.0 {
      var x := s[i] - Mean(s);
      assert d[i] == x * x;
    }
    SumAtLeastZero(d);
  }

  /** The runs of a setting that all took the same value have standard
      deviation 0. */
  lemma ConstantStdIsZero(s: seq<real>, sqrt: real -> real)
    requires |s| > 0 && forall i :: 0 <= i < |s| ==> s[i] == s[0]
    requires sqrt(0.0) == 0.0
    ensures Mean(s) == s[0] && Std(s, sqrt) == 0.0
  {
    SumConstant(s, s[0]);
    var d := SquaredDeviations(s, Mean(s));
    SumConstant(d, 0.0);
  }

  lemma {:induction false} SumAtLeastZero(s: seq<real>)
    requires forall i :: 0 <= i < |s| ==> s[i] >= 0.0
    ensures Sum(s) >= 0.0
    decreases |s|
  {
    if s != [] {
      SumAtLeastZero(s[..|s| - 1]);
    }
  }

  lemma {:induction false} SumConstant(s: seq<real>, c: real)
    requires forall i :: 0 <= i < |s| ==> s[i] == c
    ensures Sum(s) == |s| as real * c
    decreases |s|
  {
    if s != [] {
      SumConstant(s[..|s| - 1], c);
    }
  }

  /** A mean of values bounded above stays under the bound. */
  lemma MeanAtMost(s: seq<real>, b: real)
    requires |s| > 0 && forall i :: 0 <= i < |s| ==> s[i] <= b
    ensures Mean(s) <= b
  {
    SumAtMost(s, b);
    assert Sum(s) / |s| as real <= (|s| as real * b) / |s| as real;
  }

  lemma {:induction false} SumAtMost(s: seq<real>, b: real)
    requires forall i :: 0 <= i < |s| ==> s[i] <= b
    ensures Sum(s) <= |s| as real * b
    decreases |s|
  {
    if s != [] {
      SumAtMost(s[..|s| - 1], b);
    }
  }

  /** A setting's three means, or its three standard deviations. */
  datatype Summary = Summary(deliveryTime: real, deliveryRatio: real, relays: real)

  /** Which statistic a summary holds. */
  datatype Statistic = MeanOf | StdOf(sqrt: real -> real)

  function Apply(stat: Statistic, s: seq<real>): real
    requires |s| > 0
  {
    match stat
    case MeanOf => Mean(s)
    case StdOf(sqrt) => Std(s, sqrt)
  }

  /** The statistic of the three lists of setting `s`. */
  function SummaryOf(g: Groups, s: Setting, stat: Statistic): Summary
    requires Consistent(g) && s in g.times.entries
  {
    Summary(Apply(stat, g.times.entries[s]), Apply(stat, g.ratios.entries[s]), Apply(stat, g.relays.entries[s]))
  }

  /** The summaries of the settings `keys`, stored in that order. */
  function Tabulate(g: Groups, keys: seq<Setting>, stat: Statistic): Dict<Setting, Summary>
    requires Consistent(g) && forall i :: 0 <= i < |keys| ==> keys[i] in g.times.entries
    decreases |keys|
  {
    if keys == [] then Empty()
    else
      var s := keys[|keys| - 1];
      Tabulate(g, keys[..|keys| - 1], stat).Put(s, SummaryOf(g, s, stat))
  }

  /** Distinct settings are stored in the order given. */
  lemma {:induction false} TabulateOrder(g: Groups, keys: seq<Setting>, stat: Statistic)
    requires Consistent(g) && forall i :: 0 <= i < |keys| ==> keys[i] in g.times.entries
    requires forall i, j :: 0 <= i < j < |keys| ==> keys[i] != keys[j]
    ensures Tabulate(g, keys, stat).Valid() && Tabulate(g, keys, stat).order == keys
    decreases |keys|
  {
    if keys != [] {
      var init := keys[..|keys| - 1];
      var s := keys[|keys| - 1];
      assert forall i :: 0 <= i < |init| ==> init[i] == keys[i];
      TabulateOrder(g, init, stat);
      PutLast(Tabulate(g, init, stat), SummaryOf(g, s, stat), keys);
    }
  }

  /** Exactly the settings given are stored, each under its own summary. */
  lemma {:induction false} TabulateEntries(g: Groups, keys: seq<Setting>, stat: Statistic)
    requires Consistent(g) && forall i :: 0 <= i < |keys| ==> keys[i] in g.times.entries
    ensures var d := Tabulate(g, keys, stat);
      forall s :: (s in d.entries <==> s in keys) && (s in keys ==> d.entries[s] == SummaryOf(g, s, stat))
    decreases |keys|
  {
    if keys != [] {
      var init := keys[..|keys| - 1];
      TabulateEntries(g, init, stat);
      assert keys == init + [keys[|keys| - 1]];
    }
  }

  /** `mean_dict` and `std_dict` have exactly the settings of `dict_times`,
      in its order, each under the statistic of that setting's lists. */
  lemma SummariesKeyedLikeTimes(data: Dict<RunKey, Metrics>, stat: Statistic)
    requires data.Valid()
    ensures var g := Grouped(data.order, data.entries);
      && Consistent(g)
      && var d := Tabulate(g, g.times.order, stat);
         && d.Valid() && d.order == g.times.order
         && forall s :: (s in d.entries <==> s in g.times.entries)
                        && (s in d.entries ==> d.entries[s] == SummaryOf(g, s, stat))
  {
    GroupedConsistent(data.order, data.entries);
    var g := Grouped(data.order, data.entries);
    TabulateOrder(g, g.times.order, stat);
    TabulateEntries(g, g.times.order, stat);
  }

  /** Because ratios are clamped, no setting's mean delivery ratio exceeds 1. */
  lemma MeanRatioAtMostOne(data: Dict<RunKey, Metrics>, s: Setting)
    requires data.Valid()
    ensures var g := Grouped(data.order, data.entries);
      && Consistent(g)
      && var d := Tabulate(g, g.times.order, MeanOf);
         s in d.entries ==> d.entries[s].deliveryRatio <= 1.0
  {
    GroupedConsistent(data.order, data.entries);
    var g := Grouped(data.order, data.entries);
    TabulateEntries(g, g.times.order, MeanOf);
    if s in Tabulate(g, g.times.order, MeanOf).entries {
      GroupContents(data.order, data.entries, s);
      ClampedColumn(Select(data.order, data.entries, s));
      MeanAtMost(g.ratios.entries[s], 1.0);
    }
  }

  lemma ClampedColumn(ms: seq<Metrics>)
    ensures forall i :: 0 <= i < |ms| ==> Column(ms, RatioOf)[i] <= 1.0
  {
    forall i | 0 <= i < |ms| ensures Column(ms, RatioOf)[i] <= 1.0 {
      assert Column(ms, RatioOf)[i] == Clamp(ms[i].deliveryRatio);
    }
  }

  /** The summary loop of `compute_data_avg_std`. */
  method Summarize(g: Groups, sqrt: real -> real) returns (means: Dict<Setting, Summary>, stds: Dict<Setting, Summary>)
    requires Consistent(g)
    ensures means == Tabulate(g, g.times.order, MeanOf)
    ensures stds == Tabulate(g, g.times.order, StdOf(sqrt))
  {
    means := Empty();
    stds := Empty();
    var order := g.times.order;
    var i := 0;
    while i < |order|
      invariant 0 <= i <= |order|
      invariant means == Tabulate(g, order[..i], MeanOf)
      invariant stds == Tabulate(g, order[..i], StdOf(sqrt))
    {
      assert order[..i + 1][..i] == order[..i];
      var s := order[i];
      var listTimes := g.times.entries[s];
      var listRatios := g.ratios.entries[s];
      var listRelays := g.relays.entries[s];
      means := means.Put(s, Summary(Mean(listTimes), Mean(listRatios), Mean(listRelays)));
      stds := stds.Put(s, Summary(Std(listTimes, sqrt), Std(listRatios, sqrt), Std(listRelays, sqrt)));
      i := i + 1;
    }
    assert order[..i] == order;
  }

  /** `compute_data_avg_std` over the table of runs, returning `mean_dict`,
      `std_dict`, `dict_times`, `dict_relays` and `dict_ratios`. */
  method ComputeDataAvgStd(data: Dict<RunKey, Metrics>, sqrt: real -> real)
    returns (means: Dict<Setting, Summary>, stds: Dict<Setting, Summary>,
             times: Dict<Setting, seq<real>>, relays: Dict<Setting, seq<real>>, ratios: Dict<Setting, seq<real>>)
    requires data.Valid()
    ensures Groups(times, ratios, relays) == Grouped(data.order, data.entries)
    ensures Consistent(Groups(times, ratios, relays))
    ensures means == Tabulate(Groups(times, ratios, relays), times.order, MeanOf)
    ensures stds == Tabulate(Groups(times, ratios, relays), times.order, StdOf(sqrt))
  {
    var g := GroupBySetting(data);
    GroupedConsistent(data.order, data.entries);
    means, stds := Summarize(g, sqrt);
    times, relays, ratios := g.times, g.relays, g.ratios;
  }
}
