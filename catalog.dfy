/** async_setup_entry: one sensor of each kind, metric and period for every
    model of the records and for the aggregate `all_models`. */
module Catalog {
  import opened Usage
  import opened Sensors

  /** SENSOR_PERIODS, in days. */
  const Periods: seq<nat> := [1, 7, 30, 90, 365]

  /** The models that get sensors: those of the records, and the aggregate. */
  function Models(data: seq<Record>): (ms: set<string>)
    ensures AllModels in ms
    ensures forall r :: r in data ==> r.model in ms
    ensures forall m :: m in ms ==> m == AllModels || exists r :: r in data && r.model == m
  {
    ModelsIn(data) + {AllModels}
  }

  /** Only cost and requests get an efficiency sensor. */
  predicate HasEfficiency(metric: Metric)
  {
    metric == Cost || metric == Requests
  }

  /** The sensors the setup creates, described by their parameters. */
  predicate InCatalog(s: Sensor, data: seq<Record>, entryId: string)
  {
    s.entryId == entryId && s.model in Models(data) && s.period in Periods
      && (s.kind == Efficiency ==> HasEfficiency(s.metric))
  }

  predicate NoDuplicates(ss: seq<Sensor>)
  {
    forall i, j :: 0 <= i < j < |ss| ==> ss[i] != ss[j]
  }

  /** The position of a metric in METRICS. */
  function MetricIndex(m: Metric): (k: nat)
    ensures k < |Metrics| && Metrics[k] == m
  {
    match m
    case Cost => 0
    case Requests => 1
    case InputTokens => 2
    case OutputTokens => 3
  }

  /** One sensor per period, of one kind, model and metric, in period order. */
  function Row(kind: Kind, model: string, metric: Metric, entryId: string): seq<Sensor>
  {
    seq(|Periods|, i requires 0 <= i < |Periods| => Sensor(kind, model, metric, Periods[i], entryId))
  }

  /** The sensors of one model for one metric: the absolute row, then the
      efficiency row where there is one. */
  function MetricSensors(model: string, metric: Metric, entryId: string): seq<Sensor>
  {
    Row(Absolute, model, metric, entryId)
      + (if HasEfficiency(metric) then Row(Efficiency, model, metric, entryId) else [])
  }

  /** The sensors of one model for the first k metrics. */
  function ModelSensors(model: string, entryId: string, k: nat): seq<Sensor>
    requires k <= |Metrics|
  {
    if k == 0 then [] else ModelSensors(model, entryId, k - 1) + MetricSensors(model, Metrics[k - 1], entryId)
  }

  lemma RowFacts(kind: Kind, model: string, metric: Metric, entryId: string)
    ensures |Row(kind, model, metric, entryId)| == 5
    ensures NoDuplicates(Row(kind, model, metric, entryId))
    ensures forall s :: s in Row(kind, model, metric, entryId) <==>
              s.kind == kind && s.model == model && s.metric == metric && s.entryId == entryId && s.period in Periods
  {
    var row := Row(kind, model, metric, entryId);
    forall s: Sensor | s.kind == kind && s.model == model && s.metric == metric && s.entryId == entryId && s.period in Periods
      ensures s in row
    {
      var i :| 0 <= i < |Periods| && Periods[i] == s.period;
      assert row[i] == s;
    }
  }

  /** The first k metrics of one model give 5 absolute and, for cost and
      requests, 5 efficiency sensors each, all different. */
  lemma ModelSensorsFacts(model: string, entryId: string, k: nat)
    requires k <= |Metrics|
    ensures NoDuplicates(ModelSensors(model, entryId, k))
    ensures |ModelSensors(model, entryId, k)| == 10 * k - (if k > 2 then 5 * (k - 2) else 0)
    ensures forall s :: s in ModelSensors(model, entryId, k) <==>
              s.model == model && s.entryId == entryId && MetricIndex(s.metric) < k && s.period in Periods
                && (s.kind == Efficiency ==> HasEfficiency(s.metric))
  {
    ModelSensorsMembers(model, entryId, k);
    ModelSensorsShape(model, entryId, k);
  }

  lemma {:induction false} ModelSensorsMembers(model: string, entryId: string, k: nat)
    requires k <= |Metrics|
    ensures forall s :: s in ModelSensors(model, entryId, k) <==>
              s.model == model && s.entryId == entryId && MetricIndex(s.metric) < k && s.period in Periods
                && (s.kind == Efficiency ==> HasEfficiency(s.metric))
  {
    if k > 0 {
      var metric := Metrics[k - 1];
      assert MetricIndex(metric) == k - 1;
      ModelSensorsMembers(model, entryId, k - 1);
      RowFacts(Absolute, model, metric, entryId);
      RowFacts(Efficiency, model, metric, entryId);
    }
  }

  lemma {:induction false} ModelSensorsShape(model: string, entryId: string, k: nat)
    requires k <= |Metrics|
    ensures NoDuplicates(ModelSensors(model, entryId, k))
    ensures |ModelSensors(model, entryId, k)| == 10 * k - (if k > 2 then 5 * (k - 2) else 0)
  {
    if k > 0 {
      var metric := Metrics[k - 1];
      var init := ModelSensors(model, entryId, k - 1);
      var block := MetricSensors(model, metric, entryId);
      ModelSensorsShape(model, entryId, k - 1);
      MetricSensorsFacts(model, metric, entryId);
      forall x | x in block ensures x !in init {
        ModelSensorsMembers(model, entryId, k - 1);
        assert MetricIndex(x.metric) == k - 1;
      }
      AppendNoDuplicates(init, block);
    }
  }

  /** The sensors of one metric: 10 for cost and requests, 5 otherwise, all
      different and all of that metric. */
  lemma MetricSensorsFacts(model: string, metric: Metric, entryId: string)
    ensures NoDuplicates(MetricSensors(model, metric, entryId))
    ensures |MetricSensors(model, metric, entryId)| == if HasEfficiency(metric) then 10 else 5
    ensures forall x :: x in MetricSensors(model, metric, entryId) ==> x.metric == metric
  {
    RowFacts(Absolute, model, metric, entryId);
    RowFacts(Efficiency, model, metric, entryId);
    var abs := Row(Absolute, model, metric, entryId);
    var eff := if HasEfficiency(metric) then Row(Efficiency, model, metric, entryId) else [];
    AppendNoDuplicates(abs, eff);
  }

  /** The number of sensors of one kind in a list. */
  function CountKind(ss: seq<Sensor>, kind: Kind): nat
  {
    if ss == [] then 0
    else CountKind(ss[..|ss| - 1], kind) + (if ss[|ss| - 1].kind == kind then 1 else 0)
  }

  lemma {:induction false} CountKindAppend(a: seq<Sensor>, b: seq<Sensor>, kind: Kind)
    ensures CountKind(a + b, kind) == CountKind(a, kind) + CountKind(b, kind)
    decreases |b|
  {
    if b == [] {
      assert a + b == a;
    } else {
      var ab := a + b;
      assert ab[..|ab| - 1] == a + b[..|b| - 1];
      CountKindAppend(a, b[..|b| - 1], kind);
    }
  }

  lemma {:induction false} CountUniform(ss: seq<Sensor>, k: Kind, kind: Kind)
    requires forall x :: x in ss ==> x.kind == k
    ensures CountKind(ss, kind) == if k == kind then |ss| else 0
  {
    if ss != [] {
      assert forall x :: x in ss[..|ss| - 1] ==> x in ss;
      assert ss[|ss| - 1] in ss;
      CountUniform(ss[..|ss| - 1], k, kind);
    }
  }

  /** Per model: 5 absolute sensors for each metric and 5 efficiency sensors
      for each of cost and requests. */
  lemma {:induction false} ModelSensorsCounts(model: string, entryId: string, k: nat)
    requires k <= |Metrics|
    ensures CountKind(ModelSensors(model, entryId, k), Absolute) == 5 * k
    ensures CountKind(ModelSensors(model, entryId, k), Efficiency) == if k >= 2 then 10 else 5 * k
  {
    if k > 0 {
      var metric := Metrics[k - 1];
      var init, block := ModelSensors(model, entryId, k - 1), MetricSensors(model, metric, entryId);
      ModelSensorsCounts(model, entryId, k - 1);
      MetricSensorsCounts(model, metric, entryId);
      CountKindAppend(init, block, Absolute);
      CountKindAppend(init, block, Efficiency);
    }
  }

  lemma MetricSensorsCounts(model: string, metric: Metric, entryId: string)
    ensures CountKind(MetricSensors(model, metric, entryId), Absolute) == 5
    ensures CountKind(MetricSensors(model, metric, entryId), Efficiency) == if HasEfficiency(metric) then 5 else 0
  {
    var abs := Row(Absolute, model, metric, entryId);
    var eff := if HasEfficiency(metric) then Row(Efficiency, model, metric, entryId) else [];
    RowCounts(Absolute, model, metric, entryId);
    RowCounts(Efficiency, model, metric, entryId);
    CountKindAppend(abs, eff, Absolute);
    CountKindAppend(abs, eff, Efficiency);
  }

  lemma RowCounts(kind: Kind, model: string, metric: Metric, entryId: string)
    ensures CountKind(Row(kind, model, metric, entryId), kind) == 5
    ensures forall other :: other != kind ==> CountKind(Row(kind, model, metric, entryId), other) == 0
  {
    var row := Row(kind, model, metric, entryId);
    assert forall x :: x in row ==> x.kind == kind;
    CountUniform(row, kind, Absolute);
    CountUniform(row, kind, Efficiency);
  }

  lemma AppendNoDuplicates(a: seq<Sensor>, b: seq<Sensor>)
    requires NoDuplicates(a) && NoDuplicates(b)
    requires forall x :: x in b ==> x !in a
    ensures NoDuplicates(a + b)
  {
    var ab := a + b;
    forall i, j | 0 <= i < j < |ab| ensures ab[i] != ab[j] {
      if i < |a| && j >= |a| {
        assert ab[j] == b[j - |a|];
        assert ab[i] in a;
      } else if i >= |a| {
        assert ab[i] == b[i - |a|] && ab[j] == b[j - |a|];
      }
    }
  }

  /** async_setup_entry: for each model (in the set's order), for each
      metric, the absolute sensors of every period, then for cost and
      requests the efficiency sensors of every period. Every sensor the
      catalog describes is created exactly once, 30 per model, and no two
      of them share a unique id. */
  method SetupEntry(data: seq<Record>, entryId: string) returns (sensors: seq<Sensor>)
    ensures forall s :: s in sensors <==> InCatalog(s, data, entryId)
    ensures NoDuplicates(sensors)
    ensures |sensors| == 30 * |Models(data)|
    ensures CountKind(sensors, Absolute) == 20 * |Models(data)|
    ensures CountKind(sensors, Efficiency) == 10 * |Models(data)|
    ensures forall i, j :: 0 <= i < j < |sensors| ==> UniqueId(sensors[i]) != UniqueId(sensors[j])
  {
    sensors := [];
    var models := Models(data);
    var remaining := models;
    while remaining != {}
      invariant remaining <= models
      invariant Built(sensors, entryId, models - remaining)
      decreases |remaining|
    {
      var model :| model in remaining;
      ghost var start := sensors;
      sensors := AddModelSensors(sensors, model, entryId);
      CatalogStep(start, model, models - remaining, entryId);
      TakeOne(models, remaining, model);
      remaining := remaining - {model};
    }
    assert models - remaining == models;
    BuiltAll(sensors, data, entryId, models);
  }

  /** Taking one model out of the remaining ones adds it to the handled ones. */
  lemma TakeOne(models: set<string>, remaining: set<string>, model: string)
    requires remaining <= models && model in remaining
    ensures models - (remaining - {model}) == (models - remaining) + {model}
  {
  }

  /** Once every model is handled the list is the whole catalog. */
  lemma BuiltAll(sensors: seq<Sensor>, data: seq<Record>, entryId: string, done: set<string>)
    requires done == Models(data)
    requires Built(sensors, entryId, done)
    ensures forall s :: s in sensors <==> InCatalog(s, data, entryId)
    ensures forall i, j :: 0 <= i < j < |sensors| ==> UniqueId(sensors[i]) != UniqueId(sensors[j])
  {
    UniqueIdsDistinct(sensors, entryId);
  }

  /** What the sensor list holds once the models of `done` are handled. */
  ghost predicate Built(sensors: seq<Sensor>, entryId: string, done: set<string>)
  {
    && (forall s :: s in sensors <==>
          s.entryId == entryId && s.model in done && s.period in Periods
            && (s.kind == Efficiency ==> HasEfficiency(s.metric)))
    && NoDuplicates(sensors)
    && |sensors| == 30 * |done|
    && CountKind(sensors, Absolute) == 20 * |done|
    && CountKind(sensors, Efficiency) == 10 * |done|
  }

  /** The loops over METRICS of the setup for one model. */
  method AddModelSensors(sensors: seq<Sensor>, model: string, entryId: string) returns (out: seq<Sensor>)
    ensures out == sensors + ModelSensors(model, entryId, |Metrics|)
  {
    out := sensors;
    for k := 0 to |Metrics|
      invariant out == sensors + ModelSensors(model, entryId, k)
    {
      var metric := Metrics[k];
      ghost var before := out;
      ghost var abs := Row(Absolute, model, metric, entryId);
      out := AddRow(out, Absolute, model, metric, entryId);
      if metric == Cost || metric == Requests {
        ghost var eff := Row(Efficiency, model, metric, entryId);
        out := AddRow(out, Efficiency, model, metric, entryId);
        assert out == before + (abs + eff);
      } else {
        assert abs + [] == abs;
      }
      assert out == before + MetricSensors(model, metric, entryId);
      assert out == sensors + (ModelSensors(model, entryId, k) + MetricSensors(model, metric, entryId));
    }
  }

  /** One `for period in SENSOR_PERIODS` loop. */
  method AddRow(sensors: seq<Sensor>, kind: Kind, model: string, metric: Metric, entryId: string) returns (out: seq<Sensor>)
    ensures out == sensors + Row(kind, model, metric, entryId)
  {
    out := sensors;
    for p := 0 to |Periods|
      invariant out == sensors + Row(kind, model, metric, entryId)[..p]
    {
      out := out + [Sensor(kind, model, metric, Periods[p], entryId)];
    }
    assert Row(kind, model, metric, entryId)[..|Periods|] == Row(kind, model, metric, entryId);
  }

  /** Handling one more model keeps the list exactly the catalog of the
      models handled so far. */
  lemma CatalogStep(start: seq<Sensor>, model: string, done: set<string>, entryId: string)
    requires model !in done
    requires Built(start, entryId, done)
    ensures Built(start + ModelSensors(model, entryId, |Metrics|), entryId, done + {model})
  {
    var block := ModelSensors(model, entryId, |Metrics|);
    ModelSensorsFacts(model, entryId, |Metrics|);
    ModelSensorsCounts(model, entryId, |Metrics|);
    AppendNoDuplicates(start, block);
    CountKindAppend(start, block, Absolute);
    CountKindAppend(start, block, Efficiency);
    assert |done + {model}| == |done| + 1;
  }

  /** Sensors of one entry that are all different have different unique ids. */
  lemma UniqueIdsDistinct(sensors: seq<Sensor>, entryId: string)
    requires NoDuplicates(sensors)
    requires forall s :: s in sensors ==> s.entryId == entryId
    ensures forall i, j :: 0 <= i < j < |sensors| ==> UniqueId(sensors[i]) != UniqueId(sensors[j])
  {
    forall i, j | 0 <= i < j < |sensors| ensures UniqueId(sensors[i]) != UniqueId(sensors[j]) {
      if UniqueId(sensors[i]) == UniqueId(sensors[j]) {
        UniqueIdInjective(sensors[i], sensors[j]);
      }
    }
  }

  /** With no records only the all_models sensors exist. */
  lemma EmptyDataCatalog(s: Sensor, entryId: string)
    ensures Models([]) == {AllModels}
    ensures InCatalog(s, [], entryId) ==> s.model == AllModels
  {
  }
}
