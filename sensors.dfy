/** The two sensor classes, OpenAISensor (an absolute reading) and
    OpenAIEfficiencySensor (a ratio to tokens). A sensor never changes after
    it is constructed, so it is a value here: its name, unique id, device
    grouping and unit are functions of its parameters, and its value is
    computed from the coordinator's current records on every read. */
module Sensors {
  import opened Wrappers
  import opened Text
  import opened Usage

  datatype Kind = Absolute | Efficiency

  /** The constructor parameters of a sensor (the coordinator is shared and
      is passed to every read as `data`). */
  datatype Sensor = Sensor(kind: Kind, model: string, metric: Metric, period: nat, entryId: string)

  /** The model part of a display name. */
  function DisplayModel(model: string): string
  {
    if model == AllModels then "All Models" else model
  }

  /** `metric.replace('_',' ').title()`. */
  function MetricTitle(m: Metric): string
  {
    Title(ReplaceChar(m.Key(), '_', ' '))
  }

  /** `_attr_name` of both classes. */
  function Name(s: Sensor): string
  {
    "OpenAI " + DisplayModel(s.model) + " " + MetricTitle(s.metric)
      + (if s.kind == Efficiency then " Efficiency" else "")
      + " Last " + Decimal(s.period) + " Days"
  }

  /** The part of a unique id after the model. */
  function IdSuffix(kind: Kind, metric: Metric, period: nat): string
  {
    "_" + metric.Key() + (if kind == Efficiency then "_eff" else "") + "_" + Decimal(period)
  }

  /** `_attr_unique_id`: `{entry_id}_{model}_{metric}_{period}`, with `_eff`
      before the period for an efficiency sensor. */
  function UniqueId(s: Sensor): string
  {
    s.entryId + "_" + s.model + IdSuffix(s.kind, s.metric, s.period)
  }

  /** `device_info`; its identifier set holds one pair whose first part is
      the integration's domain (const.py is not part of this model), so only
      the second part is kept. */
  datatype DeviceInfo = DeviceInfo(identifier: string, name: string, manufacturer: string, model: string)

  function Device(s: Sensor): DeviceInfo
  {
    if s.model == AllModels then
      DeviceInfo(s.entryId + "_all_models", "OpenAI All Models", "OpenAI", "Aggregate")
    else
      DeviceInfo(s.entryId + "_" + s.model, "OpenAI " + s.model, "OpenAI", s.model)
  }

  /** `native_unit_of_measurement` of OpenAISensor: substring tests on the
      metric name, in this order. */
  function AbsoluteUnit(metric: string): Option<string>
  {
    if Contains(metric, "tokens") then Some("tokens")
    else if Contains(metric, "cost") then Some("$")
    else if Contains(metric, "requests") then Some("calls")
    else None
  }

  /** `native_unit_of_measurement` of OpenAIEfficiencySensor. */
  function EfficiencyUnit(metric: string): Option<string>
  {
    if metric == "cost" then Some("$/token")
    else if metric == "requests" then Some("requests/token")
    else None
  }

  function Unit(s: Sensor): Option<string>
  {
    if s.kind == Absolute then AbsoluteUnit(s.metric.Key()) else EfficiencyUnit(s.metric.Key())
  }

  // ---------------------------------------------------------------------
  // Values. `today` is the day number of date.today() and `dayKey` gives a
  // day's isoformat() text.
  // ---------------------------------------------------------------------

  /** What OpenAISensor.native_value returns (before rounding a cost). */
  function AbsoluteReading(s: Sensor, data: seq<Record>, today: int, dayKey: int -> string): real
  {
    var modelData := Selected(data, s.model);
    if modelData == [] then 0.0
    else MapWindow(DailyUsage(modelData), s.metric, dayKey, today, s.period)
  }

  /** The ratio OpenAIEfficiencySensor computes from a day dictionary:
      None where the Python method falls off its end, for a metric that is
      neither cost nor requests while tokens were used. */
  function EfficiencyOf(daily: map<string, Totals>, metric: Metric, period: nat, today: int, dayKey: int -> string): Option<real>
  {
    var tokens := MapWindow(daily, InputTokens, dayKey, today, period)
                + MapWindow(daily, OutputTokens, dayKey, today, period);
    if tokens == 0.0 then Some(0.0)
    else if metric == Cost then Some(MapWindow(daily, Cost, dayKey, today, period) / tokens)
    else if metric == Requests then Some(MapWindow(daily, Requests, dayKey, today, period) / tokens)
    else None
  }

  /** What OpenAIEfficiencySensor.native_value returns (before rounding). */
  function EfficiencyReading(s: Sensor, data: seq<Record>, today: int, dayKey: int -> string): Option<real>
  {
    var modelData := Selected(data, s.model);
    if modelData == [] then Some(0.0)
    else EfficiencyOf(DailyUsage(modelData), s.metric, s.period, today, dayKey)
  }

  /** OpenAISensor.native_value. */
  method AbsoluteValue(s: Sensor, data: seq<Record>, today: int, dayKey: int -> string) returns (value: real)
    ensures value == AbsoluteReading(s, data, today, dayKey)
  {
    var modelData := if s.model == AllModels then data else Filter(data, s.model);
    if modelData == [] {
      return 0.0;
    }
    var daily := BuildDailyUsage(modelData);
    var total := 0.0;
    for i := 0 to s.period
      invariant total == MapWindow(daily, s.metric, dayKey, today, i)
    {
      var day := dayKey(today - i);
      assert WindowKey(dayKey, today, i) == day;
      if day in daily {
        total := total + Field(daily[day], s.metric);
      }
    }
    assert modelData == Selected(data, s.model);
    return total;
  }

  /** OpenAIEfficiencySensor.native_value. */
  method EfficiencyValue(s: Sensor, data: seq<Record>, today: int, dayKey: int -> string) returns (value: Option<real>)
    ensures value == EfficiencyReading(s, data, today, dayKey)
  {
    var modelData := if s.model == AllModels then data else Filter(data, s.model);
    if modelData == [] {
      return Some(0.0);
    }
    var daily := BuildDailyUsage(modelData);
    var totalCost, totalRequests, totalTokens := EfficiencyTotals(daily, s.period, today, dayKey);
    assert modelData == Selected(data, s.model);
    if totalTokens == 0 {
      return Some(0.0);
    }
    if s.metric == Cost {
      return Some(totalCost / totalTokens as real);
    }
    if s.metric == Requests {
      return Some(totalRequests as real / totalTokens as real);
    }
    return None;
  }

  /** The window loop of OpenAIEfficiencySensor.native_value: cost, requests
      and input plus output tokens, summed over the same days. */
  method EfficiencyTotals(daily: map<string, Totals>, period: nat, today: int, dayKey: int -> string)
    returns (totalCost: real, totalRequests: int, totalTokens: int)
    ensures totalCost == MapWindow(daily, Cost, dayKey, today, period)
    ensures totalRequests as real == MapWindow(daily, Requests, dayKey, today, period)
    ensures totalTokens as real == MapWindow(daily, InputTokens, dayKey, today, period)
                                 + MapWindow(daily, OutputTokens, dayKey, today, period)
  {
    totalCost, totalRequests, totalTokens := 0.0, 0, 0;
    for i := 0 to period
      invariant totalCost == MapWindow(daily, Cost, dayKey, today, i)
      invariant totalRequests as real == MapWindow(daily, Requests, dayKey, today, i)
      invariant totalTokens as real == MapWindow(daily, InputTokens, dayKey, today, i)
                                     + MapWindow(daily, OutputTokens, dayKey, today, i)
    {
      var day := dayKey(today - i);
      assert WindowKey(dayKey, today, i) == day;
      if day in daily {
        totalCost := totalCost + daily[day].cost;
        totalRequests := totalRequests + daily[day].requests;
        totalTokens := totalTokens + daily[day].inputTokens + daily[day].outputTokens;
      }
    }
  }

  // ---------------------------------------------------------------------
  // Properties of the values.
  // ---------------------------------------------------------------------

  lemma {:induction false} MapWindowOfEmpty(metric: Metric, dayKey: int -> string, today: int, n: nat)
    ensures MapWindow(map[], metric, dayKey, today, n) == 0.0
  {
    if n > 0 { MapWindowOfEmpty(metric, dayKey, today, n - 1); }
  }

  /** The `if not model_data: return 0` guard never changes the value: the
      window over no records is 0 as well. */
  lemma EmptyGuardRedundant(s: Sensor, data: seq<Record>, today: int, dayKey: int -> string)
    ensures AbsoluteReading(s, data, today, dayKey)
         == MapWindow(DailyUsage(Selected(data, s.model)), s.metric, dayKey, today, s.period)
  {
    var modelData := Selected(data, s.model);
    if modelData == [] {
      assert DailyUsage(modelData) == map[];
      MapWindowOfEmpty(s.metric, dayKey, today, s.period);
    }
  }

  /** The same for the efficiency sensor: with no records there are no
      tokens, and the zero-token policy gives 0 as well. */
  lemma EfficiencyGuardRedundant(s: Sensor, data: seq<Record>, today: int, dayKey: int -> string)
    ensures EfficiencyReading(s, data, today, dayKey)
         == EfficiencyOf(DailyUsage(Selected(data, s.model)), s.metric, s.period, today, dayKey)
  {
    var modelData := Selected(data, s.model);
    if modelData == [] {
      assert DailyUsage(modelData) == map[];
      MapWindowOfEmpty(InputTokens, dayKey, today, s.period);
      MapWindowOfEmpty(OutputTokens, dayKey, today, s.period);
    }
  }

  /** The absolute value is the metric summed over the sensor's records dated
      inside the window: every record for all_models, exactly the records
      of its own model otherwise; 0 when there are none. */
  lemma AbsoluteOverRecords(s: Sensor, data: seq<Record>, today: int, dayKey: int -> string)
    requires DistinctWindow(dayKey, today, s.period)
    ensures AbsoluteReading(s, data, today, dayKey)
         == RecordsWindow(Selected(data, s.model), s.metric, WindowDays(dayKey, today, s.period))
  {
    EmptyGuardRedundant(s, data, today, dayKey);
    WindowOverRecords(Selected(data, s.model), s.metric, dayKey, today, s.period);
  }

  /** The efficiency value is the ratio of the absolute values of the same
      model and period: cost (or requests) over input plus output tokens, and
      0 when no tokens were used. */
  lemma EfficiencyIsRatio(s: Sensor, data: seq<Record>, today: int, dayKey: int -> string)
    requires s.metric == Cost || s.metric == Requests
    ensures var tokens := AbsoluteReading(s.(metric := InputTokens), data, today, dayKey)
                        + AbsoluteReading(s.(metric := OutputTokens), data, today, dayKey);
            EfficiencyReading(s, data, today, dayKey)
              == Some(if tokens == 0.0 then 0.0 else AbsoluteReading(s, data, today, dayKey) / tokens)
  {
  }

  /** Per-model sums of the absolute readings of the models in ms. */
  function SumOfModelReadings(ms: seq<string>, metric: Metric, period: nat, entryId: string,
                              data: seq<Record>, today: int, dayKey: int -> string): real
  {
    if ms == [] then 0.0
    else
      AbsoluteReading(Sensor(Absolute, ms[0], metric, period, entryId), data, today, dayKey)
        + SumOfModelReadings(ms[1..], metric, period, entryId, data, today, dayKey)
  }

  lemma {:induction false} SumOfModelReadingsOverRecords(ms: seq<string>, metric: Metric, period: nat, entryId: string,
                                                         data: seq<Record>, today: int, dayKey: int -> string)
    requires DistinctWindow(dayKey, today, period)
    requires AllModels !in ms
    ensures SumOfModelReadings(ms, metric, period, entryId, data, today, dayKey)
         == PerModelWindows(data, ms, metric, WindowDays(dayKey, today, period))
  {
    if ms != [] {
      assert ms[0] in ms;
      AbsoluteOverRecords(Sensor(Absolute, ms[0], metric, period, entryId), data, today, dayKey);
      assert AllModels !in ms[1..] by { forall m | m in ms[1..] ensures m in ms { } }
      SumOfModelReadingsOverRecords(ms[1..], metric, period, entryId, data, today, dayKey);
    }
  }

  /** Additivity across models: the all_models reading of a metric is the sum
      of the readings of the individual models, for any list of distinct models
      that covers every record's model (a model literally named all_models
      would be the aggregate itself, so it is excluded). */
  lemma AllModelsIsSumOfModels(ms: seq<string>, metric: Metric, period: nat, entryId: string,
                               data: seq<Record>, today: int, dayKey: int -> string)
    requires DistinctWindow(dayKey, today, period)
    requires Distinct(ms) && AllModels !in ms
    requires forall r :: r in data ==> r.model in ms
    ensures AbsoluteReading(Sensor(Absolute, AllModels, metric, period, entryId), data, today, dayKey)
         == SumOfModelReadings(ms, metric, period, entryId, data, today, dayKey)
  {
    var days := WindowDays(dayKey, today, period);
    AbsoluteOverRecords(Sensor(Absolute, AllModels, metric, period, entryId), data, today, dayKey);
    SumOfModelReadingsOverRecords(ms, metric, period, entryId, data, today, dayKey);
    ModelsAdd(data, ms, metric, days);
  }

  lemma SelectedInsert(a: seq<Record>, r: Record, b: seq<Record>, model: string)
    ensures Selected(a + [r] + b, model) == Selected(a, model) + Selected([r], model) + Selected(b, model)
    ensures Selected(a + b, model) == Selected(a, model) + Selected(b, model)
    ensures Selected([r], model) == if model == AllModels || r.model == model then [r] else []
  {
    if model != AllModels {
      FilterAppend(a + [r], b, model);
      FilterAppend(a, [r], model);
      FilterAppend(a, b, model);
      assert [r][..0] == [];
    }
  }

  /** A record whose timestamp is missing or empty can be removed without
      changing any sensor's value, of either kind. */
  lemma UnbucketedRecordIgnored(s: Sensor, a: seq<Record>, r: Record, b: seq<Record>, today: int, dayKey: int -> string)
    requires !Bucketed(r)
    ensures AbsoluteReading(s, a + [r] + b, today, dayKey) == AbsoluteReading(s, a + b, today, dayKey)
    ensures EfficiencyReading(s, a + [r] + b, today, dayKey) == EfficiencyReading(s, a + b, today, dayKey)
  {
    var sa, sb := Selected(a, s.model), Selected(b, s.model);
    SelectedInsert(a, r, b, s.model);
    if Selected([r], s.model) == [r] {
      UnbucketedIgnored(sa, r, sb);
    } else {
      assert sa + [] + sb == sa + sb;
    }
    SameWindowsSameReadings(s, a + [r] + b, a + b, today, dayKey);
  }

  /** A record dated outside the window can be removed without changing any
      sensor's value, of either kind: buckets outside the window have no
      effect. */
  lemma OutsideWindowRecordIgnored(s: Sensor, a: seq<Record>, r: Record, b: seq<Record>, today: int, dayKey: int -> string)
    requires Bucketed(r) ==> DayOf(r) !in WindowDays(dayKey, today, s.period)
    ensures AbsoluteReading(s, a + [r] + b, today, dayKey) == AbsoluteReading(s, a + b, today, dayKey)
    ensures EfficiencyReading(s, a + [r] + b, today, dayKey) == EfficiencyReading(s, a + b, today, dayKey)
  {
    forall m: Metric
      ensures MapWindow(DailyUsage(Selected(a + [r] + b, s.model)), m, dayKey, today, s.period)
           == MapWindow(DailyUsage(Selected(a + b, s.model)), m, dayKey, today, s.period)
    {
      SelectedOutsideWindow(s.model, a, r, b, m, today, dayKey, s.period);
    }
    SameWindowsSameReadings(s, a + [r] + b, a + b, today, dayKey);
  }

  lemma SelectedOutsideWindow(model: string, a: seq<Record>, r: Record, b: seq<Record>, m: Metric,
                              today: int, dayKey: int -> string, n: nat)
    requires Bucketed(r) ==> DayOf(r) !in WindowDays(dayKey, today, n)
    ensures MapWindow(DailyUsage(Selected(a + [r] + b, model)), m, dayKey, today, n)
         == MapWindow(DailyUsage(Selected(a + b, model)), m, dayKey, today, n)
  {
    var sa, sb := Selected(a, model), Selected(b, model);
    SelectedInsert(a, r, b, model);
    if Selected([r], model) == [r] {
      OutsideWindowIgnored(sa, r, sb, m, dayKey, today, n);
    } else {
      assert sa + [] + sb == sa + sb;
    }
  }

  /** Two record lists whose selections give the same window sums for every
      metric give the same readings of both kinds. */
  lemma SameWindowsSameReadings(s: Sensor, x: seq<Record>, y: seq<Record>, today: int, dayKey: int -> string)
    requires forall m: Metric :: MapWindow(DailyUsage(Selected(x, s.model)), m, dayKey, today, s.period)
                              == MapWindow(DailyUsage(Selected(y, s.model)), m, dayKey, today, s.period)
    ensures AbsoluteReading(s, x, today, dayKey) == AbsoluteReading(s, y, today, dayKey)
    ensures EfficiencyReading(s, x, today, dayKey) == EfficiencyReading(s, y, today, dayKey)
  {
    EmptyGuardRedundant(s, x, today, dayKey);
    EmptyGuardRedundant(s, y, today, dayKey);
    EfficiencyGuardRedundant(s, x, today, dayKey);
    EfficiencyGuardRedundant(s, y, today, dayKey);
  }

  // ---------------------------------------------------------------------
  // Properties of names, ids, units and device grouping.
  // ---------------------------------------------------------------------

  /** The display name says "All Models" for the sentinel and for nothing
      else, except a model that is itself called "All Models". */
  lemma DisplayModelAllModels(model: string)
    ensures DisplayModel(model) == "All Models" <==> model == AllModels || model == "All Models"
  {
  }

  /** The metric part of every display name. */
  lemma MetricTitles(m: Metric)
    ensures MetricTitle(m) == match m
                              case Cost => "Cost"
                              case Requests => "Requests"
                              case InputTokens => "Input Tokens"
                              case OutputTokens => "Output Tokens"
  {
    match m
    case Cost => TitleOfCost();
    case Requests => TitleOfRequests();
    case InputTokens => TitleOfInputTokens();
    case OutputTokens => TitleOfOutputTokens();
  }

  /** The text of a display name after the model part. */
  function NameTail(s: Sensor): string
  {
    MetricTitle(s.metric) + (if s.kind == Efficiency then " Efficiency" else "")
      + " Last " + Decimal(s.period)
  }

  lemma NameSplit(s: Sensor)
    ensures Name(s) == ("OpenAI " + DisplayModel(s.model) + " ") + NameTail(s) + " Days"
  {
  }

  /** Every display name opens with "OpenAI " and the model part, shown as
      "All Models" for the aggregate. */
  lemma NamePrefix(s: Sensor)
    ensures s.model == AllModels ==> Name(s)[..18] == "OpenAI All Models "
    ensures s.model != AllModels ==> Name(s)[..8 + |s.model|] == "OpenAI " + s.model + " "
  {
    var h := "OpenAI " + DisplayModel(s.model) + " ";
    NameSplit(s);
    PrefixOfConcat(h, NameTail(s) + " Days");
    if s.model == AllModels {
      assert h == "OpenAI All Models ";
    }
  }

  /** Every display name closes with the word "Days". */
  lemma NameSuffix(s: Sensor)
    ensures Name(s)[|Name(s)| - 5..] == " Days"
  {
    NameSplit(s);
    SuffixOfConcat("OpenAI " + DisplayModel(s.model) + " " + NameTail(s), " Days");
  }

  lemma PrefixOfConcat(a: string, b: string)
    ensures (a + b)[..|a|] == a
  {
  }

  lemma SuffixOfConcat(a: string, b: string)
    ensures (a + b)[|a|..] == b
  {
  }

  /** The efficiency sensor of a model, metric and period is named like the
      absolute one with " Efficiency" inserted, so the two names differ. */
  lemma NameKinds(model: string, metric: Metric, period: nat, e1: string, e2: string)
    ensures |Name(Sensor(Efficiency, model, metric, period, e1))|
            == |Name(Sensor(Absolute, model, metric, period, e2))| + 11
  {
  }

  /** A concrete name of the aggregate. */
  lemma NameOfAggregate(s: Sensor)
    requires s.kind == Absolute && s.model == AllModels && s.metric == Cost && s.period == 7
    ensures Name(s) == "OpenAI All Models Cost Last 7 Days"
  {
    NameSplit(s);
    TailOfCost(s, "7");
    assert "OpenAI " + DisplayModel(s.model) + " " == "OpenAI All Models ";
    assert "OpenAI All Models " + ("Cost" + "" + " Last " + "7") + " Days"
           == "OpenAI All Models Cost Last 7 Days";
  }

  /** A concrete name of an efficiency sensor of one model. */
  lemma NameOfModelEfficiency(s: Sensor)
    requires s.kind == Efficiency && s.model == "o1" && s.metric == Cost && s.period == 1
    ensures Name(s) == "OpenAI o1 Cost Efficiency Last 1 Days"
  {
    NameSplit(s);
    TailOfCost(s, "1");
    assert "OpenAI " + DisplayModel(s.model) + " " == "OpenAI o1 ";
    assert "OpenAI o1 " + ("Cost" + " Efficiency" + " Last " + "1") + " Days"
           == "OpenAI o1 Cost Efficiency Last 1 Days";
  }

  lemma TailOfCost(s: Sensor, digits: string)
    requires s.metric == Cost && s.period < 10 && digits == [DigitChar(s.period)]
    ensures NameTail(s) == "Cost" + (if s.kind == Efficiency then " Efficiency" else "") + " Last " + digits
  {
    TitleOfCost();
  }

  lemma TitleOfCost()
    ensures Title(ReplaceChar(Cost.Key(), '_', ' ')) == "Cost"
  {
    TitleOfSnake("cost", "x");
  }

  lemma TitleOfRequests()
    ensures Title(ReplaceChar(Requests.Key(), '_', ' ')) == "Requests"
  {
    TitleOfSnake("requests", "x");
  }

  lemma TitleOfInputTokens()
    ensures Title(ReplaceChar(InputTokens.Key(), '_', ' ')) == "Input Tokens"
  {
    assert InputTokens.Key() == "input" + "_" + "tokens";
    TitleOfSnake("input", "tokens");
  }

  lemma TitleOfOutputTokens()
    ensures Title(ReplaceChar(OutputTokens.Key(), '_', ' ')) == "Output Tokens"
  {
    assert OutputTokens.Key() == "output" + "_" + "tokens";
    TitleOfSnake("output", "tokens");
  }

  /** Units of both kinds, by metric: the substring tests of OpenAISensor
      pick "tokens" for both token metrics. */
  lemma Units(s: Sensor)
    ensures s.kind == Absolute ==> Unit(s) == Some(match s.metric
                                                   case Cost => "$"
                                                   case Requests => "calls"
                                                   case _ => "tokens")
    ensures s.kind == Efficiency ==> Unit(s) == match s.metric
                                                case Cost => Some("$/token")
                                                case Requests => Some("requests/token")
                                                case _ => None
  {
    match s.metric
    case InputTokens =>
      assert OccursAt("input_tokens", "tokens", 6);
    case OutputTokens =>
      assert OccursAt("output_tokens", "tokens", 7);
    case Cost =>
      assert OccursAt("cost", "cost", 0);
    case Requests =>
      RequestsUnit();
  }

  /** "requests" contains neither "tokens" nor "cost": the third test decides. */
  lemma RequestsUnit()
    ensures AbsoluteUnit("requests") == Some("calls")
  {
    forall i: nat ensures !OccursAt("requests", "tokens", i) {
      if i + 6 <= 8 {
        var w := "requests"[i..i + 6];
        assert w[0] == "requests"[i] != 't';
      }
    }
    forall i: nat ensures !OccursAt("requests", "cost", i) {
      if i + 4 <= 8 {
        var w := "requests"[i..i + 4];
        assert w[0] == "requests"[i] != 'c';
      }
    }
    assert OccursAt("requests", "requests", 0);
  }

  /** Every sensor of one model, of either kind and for all_models too, is
      grouped under the device `{entry_id}_{model}`, named after the display
      model; within one entry two sensors share a device exactly when they
      share a model. */
  lemma DeviceGrouping(s1: Sensor, s2: Sensor)
    ensures Device(s1).identifier == s1.entryId + "_" + s1.model
    ensures Device(s1).name == "OpenAI " + DisplayModel(s1.model)
    ensures Device(s1).manufacturer == "OpenAI"
    ensures Device(s1).model == if s1.model == AllModels then "Aggregate" else s1.model
    ensures s1.entryId == s2.entryId ==>
              (Device(s1).identifier == Device(s2).identifier <==> s1.model == s2.model)
  {
    if s1.entryId == s2.entryId && Device(s1).identifier == Device(s2).identifier {
      SplitAtSameLength(s1.entryId + "_", s1.model, s2.entryId + "_", s2.model);
    }
  }

  lemma SplitAtSameLength(x: string, p: string, y: string, q: string)
    requires x + p == y + q && |p| == |q|
    ensures x == y && p == q
  {
    assert x == (x + p)[..|x|];
    assert y == (y + q)[..|y|];
    assert p == (x + p)[|x|..];
    assert q == (y + q)[|y|..];
  }

  lemma CharFromEnd(x: string, p: string, y: string, q: string, j: nat)
    requires x + p == y + q && j < |p| && j < |q|
    ensures p[|p| - 1 - j] == q[|q| - 1 - j]
  {
    var z := x + p;
    assert z[|z| - 1 - j] == p[|p| - 1 - j];
    assert z[|z| - 1 - j] == (y + q)[|z| - 1 - j];
  }

  predicate NoUnderscore(p: string)
  {
    forall i :: 0 <= i < |p| ==> p[i] != '_'
  }

  /** Text after the last underscore: if x_p == y_q and neither p nor q has
      an underscore, then x == y and p == q. */
  lemma LastUnderscore(x: string, p: string, y: string, q: string)
    requires x + ("_" + p) == y + ("_" + q)
    requires NoUnderscore(p) && NoUnderscore(q)
    ensures x == y && p == q
  {
    if |p| < |q| {
      CharFromEnd(x, "_" + p, y, "_" + q, |p|);
      assert false;
    } else if |q| < |p| {
      CharFromEnd(y, "_" + q, x, "_" + p, |q|);
      assert false;
    }
    SplitAtSameLength(x, "_" + p, y, "_" + q);
    assert ("_" + p)[1..] == p && ("_" + q)[1..] == q;
  }

  /** No metric name, with its leading underscore, ends another one. */
  lemma MetricKeysSuffixFree(m1: Metric, m2: Metric)
    ensures m1 != m2 ==> |m1.Key()| != |m2.Key()|
    ensures |m1.Key()| < |m2.Key()| ==> ("_" + m2.Key())[|m2.Key()| - |m1.Key()|] != '_'
  {
  }

  lemma MetricFromEnd(x1: string, m1: Metric, x2: string, m2: Metric)
    requires x1 + ("_" + m1.Key()) == x2 + ("_" + m2.Key())
    ensures m1 == m2 && x1 == x2
  {
    var k1, k2 := m1.Key(), m2.Key();
    MetricKeysSuffixFree(m1, m2);
    MetricKeysSuffixFree(m2, m1);
    if |k1| < |k2| {
      CharFromEnd(x1, "_" + k1, x2, "_" + k2, |k1|);
    } else if |k2| < |k1| {
      CharFromEnd(x2, "_" + k2, x1, "_" + k1, |k2|);
    }
    SplitAtSameLength(x1, "_" + k1, x2, "_" + k2);
  }

  /** Unique ids are unique: within one config entry a unique id determines
      the sensor's kind, model, metric and period, whatever the model name
      (underscores included). */
  lemma UniqueIdInjective(s1: Sensor, s2: Sensor)
    requires s1.entryId == s2.entryId
    requires UniqueId(s1) == UniqueId(s2)
    ensures s1 == s2
  {
    var e := s1.entryId;
    var x1, x2 := e + "_" + s1.model, e + "_" + s2.model;
    var eff1 := if s1.kind == Efficiency then "_eff" else "";
    var eff2 := if s2.kind == Efficiency then "_eff" else "";
    var mid1, mid2 := x1 + ("_" + s1.metric.Key()), x2 + ("_" + s2.metric.Key());
    UniqueIdShape(s1);
    UniqueIdShape(s2);
    StripPeriod(mid1 + eff1, s1.period, mid2 + eff2, s2.period);
    StripEfficiency(x1, s1.metric, s1.kind, x2, s2.metric, s2.kind);
    MetricFromEnd(x1, s1.metric, x2, s2.metric);
    SplitAtSameLength(e + "_", s1.model, e + "_", s2.model);
  }

  /** The unique id, grouped the way it is taken apart. */
  lemma UniqueIdShape(s: Sensor)
    ensures UniqueId(s) == ((s.entryId + "_" + s.model) + ("_" + s.metric.Key()))
                           + (if s.kind == Efficiency then "_eff" else "") + ("_" + Decimal(s.period))
  {
    var x, k, d := s.entryId + "_" + s.model, s.metric.Key(), Decimal(s.period);
    var eff := if s.kind == Efficiency then "_eff" else "";
    assert IdSuffix(s.kind, s.metric, s.period) == "_" + k + eff + "_" + d;
    assert x + ("_" + k + eff + "_" + d) == (x + ("_" + k)) + eff + ("_" + d);
  }

  /** The period is the text after the last underscore. */
  lemma StripPeriod(x1: string, n1: nat, x2: string, n2: nat)
    requires x1 + ("_" + Decimal(n1)) == x2 + ("_" + Decimal(n2))
    ensures x1 == x2 && n1 == n2
  {
    LastUnderscore(x1, Decimal(n1), x2, Decimal(n2));
    DecimalInjective(n1, n2);
  }

  /** `_eff` is there exactly for an efficiency sensor: no metric name ends
      in "eff". */
  lemma StripEfficiency(x1: string, m1: Metric, k1: Kind, x2: string, m2: Metric, k2: Kind)
    requires x1 + ("_" + m1.Key()) + (if k1 == Efficiency then "_eff" else "")
          == x2 + ("_" + m2.Key()) + (if k2 == Efficiency then "_eff" else "")
    ensures k1 == k2
    ensures x1 + ("_" + m1.Key()) == x2 + ("_" + m2.Key())
  {
    var mid1, mid2 := x1 + ("_" + m1.Key()), x2 + ("_" + m2.Key());
    var eff1 := if k1 == Efficiency then "_eff" else "";
    var eff2 := if k2 == Efficiency then "_eff" else "";
    if k1 != k2 {
      if k1 == Efficiency {
        CharFromEnd(mid1, eff1, x2, "_" + m2.Key(), 0);
      } else {
        CharFromEnd(mid2, eff2, x1, "_" + m1.Key(), 0);
      }
      assert false;
    }
    SplitAtSameLength(mid1, eff1, mid2, eff2);
  }
}
