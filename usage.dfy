/** The usage records the coordinator hands to every sensor, the per-day
    buckets both kinds of sensor build from them, and the trailing window of
    days a sensor sums over. */
module Usage {
  import opened Wrappers
  import opened Text

  /** The sentinel model name of the aggregate sensors. */
  const AllModels: string := "all_models"

  /** One usage record. `model` is read with `item["model"]`, so it is always
      present; every other field is read with `.get` and may be missing
      (None). A timestamp whose value is null also reads as None. */
  datatype Record = Record(
    model: string,
    timestamp: Option<string>,
    cost: Option<real>,
    nRequests: Option<int>,
    promptTokens: Option<int>,
    completionTokens: Option<int>)

  /** The four metrics a sensor can report, in the order of METRICS. */
  datatype Metric = Cost | Requests | InputTokens | OutputTokens
  {
    /** The metric's name: its key in a day bucket and its part of a unique id. */
    function Key(): string
    {
      match this
      case Cost => "cost"
      case Requests => "requests"
      case InputTokens => "input_tokens"
      case OutputTokens => "output_tokens"
    }
  }

  const Metrics: seq<Metric> := [Cost, Requests, InputTokens, OutputTokens]

  /** The four running sums of one day bucket. */
  datatype Totals = Totals(cost: real, requests: int, inputTokens: int, outputTokens: int)

  const Zero: Totals := Totals(0.0, 0, 0, 0)

  function Add(a: Totals, b: Totals): Totals
  {
    Totals(a.cost + b.cost, a.requests + b.requests,
           a.inputTokens + b.inputTokens, a.outputTokens + b.outputTokens)
  }

  /** The bucket entry a metric names. */
  function Field(t: Totals, m: Metric): real
  {
    match m
    case Cost => t.cost
    case Requests => t.requests as real
    case InputTokens => t.inputTokens as real
    case OutputTokens => t.outputTokens as real
  }

  lemma FieldAdd(a: Totals, b: Totals, m: Metric)
    ensures Field(Add(a, b), m) == Field(a, m) + Field(b, m)
  {
  }

  function OrZero(x: Option<int>): int
  {
    match x
    case Some(v) => v
    case None => 0
  }

  /** What one record adds to its day's bucket: a missing field adds 0. */
  function Contribution(r: Record): Totals
  {
    Totals(match r.cost case Some(c) => c case None => 0.0,
           OrZero(r.nRequests), OrZero(r.promptTokens), OrZero(r.completionTokens))
  }

  /** `ts.split("T")[0]`: the text before the first "T", or all of ts. */
  function BeforeT(ts: string): (day: string)
    ensures |day| <= |ts| && day == ts[..|day|]
    ensures forall i :: 0 <= i < |day| ==> day[i] != 'T'
    ensures |day| < |ts| ==> ts[|day|] == 'T'
    ensures 'T' !in ts ==> day == ts
  {
    if ts == [] || ts[0] == 'T' then [] else [ts[0]] + BeforeT(ts[1..])
  }

  /** A record takes part in bucketing when its timestamp is present and
      non-empty (a falsy timestamp is skipped). */
  predicate Bucketed(r: Record)
  {
    r.timestamp.Some? && r.timestamp.value != ""
  }

  function DayOf(r: Record): string
    requires Bucketed(r)
  {
    BeforeT(r.timestamp.value)
  }

  /** The day keys the records produce. */
  function Days(rs: seq<Record>): set<string>
  {
    set r | r in rs && Bucketed(r) :: DayOf(r)
  }

  /** The bucket of one day: the sum of the contributions of the records whose
      day key is that day. */
  function DayTotal(rs: seq<Record>, day: string): Totals
  {
    if rs == [] then Zero
    else
      var last := rs[|rs| - 1];
      Add(DayTotal(rs[..|rs| - 1], day),
          if Bucketed(last) && DayOf(last) == day then Contribution(last) else Zero)
  }

  /** The `daily_usage` dictionary built from a list of records. */
  function DailyUsage(rs: seq<Record>): map<string, Totals>
  {
    map day | day in Days(rs) :: DayTotal(rs, day)
  }

  /** A missing bucket reads as all zeros. */
  function Lookup(daily: map<string, Totals>, day: string): Totals
  {
    if day in daily then daily[day] else Zero
  }

  lemma {:induction false} DayTotalOutside(rs: seq<Record>, day: string)
    requires day !in Days(rs)
    ensures DayTotal(rs, day) == Zero
  {
    if rs != [] {
      var init := rs[..|rs| - 1];
      assert Days(init) <= Days(rs) by {
        forall r | r in init ensures r in rs { }
      }
      DayTotalOutside(init, day);
      assert rs[|rs| - 1] in rs;
    }
  }

  /** Looking a day up in the dictionary gives that day's bucket, zeros when no
      record carries the day. */
  lemma LookupDaily(rs: seq<Record>, day: string)
    ensures Lookup(DailyUsage(rs), day) == DayTotal(rs, day)
  {
    if day !in Days(rs) { DayTotalOutside(rs, day); }
  }

  lemma DaysSnoc(rs: seq<Record>, r: Record)
    ensures Days(rs + [r]) == Days(rs) + (if Bucketed(r) then {DayOf(r)} else {})
  {
    var all := rs + [r];
    forall x | x in all ensures x in rs || x == r { }
    forall x | x in rs ensures x in all { }
    assert r in all;
  }

  /** One step of the bucketing loop: a record with a timestamp adds its
      contribution to its own day's bucket (creating it at zero first); any
      other record changes nothing. */
  lemma DailyUsageSnoc(rs: seq<Record>, r: Record)
    ensures DailyUsage(rs + [r]) ==
      if Bucketed(r) then
        DailyUsage(rs)[DayOf(r) := Add(Lookup(DailyUsage(rs), DayOf(r)), Contribution(r))]
      else DailyUsage(rs)
  {
    if Bucketed(r) {
      DailyUsageSnocBucketed(rs, r);
    } else {
      DailyUsageSnocUnbucketed(rs, r);
    }
  }

  lemma DailyUsageSnocBucketed(rs: seq<Record>, r: Record)
    requires Bucketed(r)
    ensures DailyUsage(rs + [r]) == DailyUsage(rs)[DayOf(r) := Add(Lookup(DailyUsage(rs), DayOf(r)), Contribution(r))]
  {
    var before, after := DailyUsage(rs), DailyUsage(rs + [r]);
    var day := DayOf(r);
    var expected := before[day := Add(Lookup(before, day), Contribution(r))];
    DaysSnoc(rs, r);
    assert after.Keys == expected.Keys;
    forall d | d in after ensures after[d] == expected[d] {
      DayTotalSnoc(rs, r, d);
      if d == day { LookupDaily(rs, day); }
    }
  }

  /** One more record changes only its own day's bucket. */
  lemma DayTotalSnoc(rs: seq<Record>, r: Record, d: string)
    ensures DayTotal(rs + [r], d) ==
      if Bucketed(r) && DayOf(r) == d then Add(DayTotal(rs, d), Contribution(r)) else DayTotal(rs, d)
  {
    var all := rs + [r];
    assert all[..|all| - 1] == rs;
  }

  lemma DailyUsageSnocUnbucketed(rs: seq<Record>, r: Record)
    requires !Bucketed(r)
    ensures DailyUsage(rs + [r]) == DailyUsage(rs)
  {
    var before, after := DailyUsage(rs), DailyUsage(rs + [r]);
    DaysSnoc(rs, r);
    assert after.Keys == before.Keys;
    forall d | d in after ensures after[d] == before[d] {
      DayTotalSnoc(rs, r, d);
    }
  }

  /** The loop of both `native_value` bodies that fills `daily_usage`. */
  method BuildDailyUsage(records: seq<Record>) returns (daily: map<string, Totals>)
    ensures daily == DailyUsage(records)
  {
    daily := map[];
    for i := 0 to |records|
      invariant daily == DailyUsage(records[..i])
    {
      var record := records[i];
      assert records[..i + 1] == records[..i] + [record];
      DailyUsageSnoc(records[..i], record);
      var ts := match record.timestamp case Some(t) => t case None => "";
      if ts != "" {
        var day := BeforeT(ts);
        if day !in daily {
          daily := daily[day := Zero];
        }
        daily := daily[day := Add(daily[day], Contribution(record))];
      }
    }
    assert records[..|records|] == records;
  }

  lemma {:induction false} DayTotalAppend(a: seq<Record>, b: seq<Record>, day: string)
    ensures DayTotal(a + b, day) == Add(DayTotal(a, day), DayTotal(b, day))
    decreases |b|
  {
    if b == [] {
      assert a + b == a;
    } else {
      var init, last := b[..|b| - 1], b[|b| - 1];
      var ab := a + b;
      assert ab[..|ab| - 1] == a + init;
      assert ab[|ab| - 1] == last;
      DayTotalAppend(a, init, day);
      var c := if Bucketed(last) && DayOf(last) == day then Contribution(last) else Zero;
      assert DayTotal(ab, day) == Add(DayTotal(a + init, day), c);
      assert DayTotal(b, day) == Add(DayTotal(init, day), c);
      AddAssociative(DayTotal(a, day), DayTotal(init, day), c);
    }
  }

  lemma AddAssociative(x: Totals, y: Totals, z: Totals)
    ensures Add(Add(x, y), z) == Add(x, Add(y, z))
  {
  }

  /** A record lands in exactly one bucket, the one of its own day, or in none
      when its timestamp is missing or empty: putting it anywhere in the list
      changes that one bucket by its contribution and nothing else. */
  lemma InsertRecord(a: seq<Record>, r: Record, b: seq<Record>, day: string)
    ensures DayTotal(a + [r] + b, day) ==
      Add(DayTotal(a + b, day), if Bucketed(r) && DayOf(r) == day then Contribution(r) else Zero)
  {
    var ar := a + [r];
    var c := if Bucketed(r) && DayOf(r) == day then Contribution(r) else Zero;
    DayTotalAppend(ar, b, day);
    DayTotalAppend(a, b, day);
    assert ar[..|ar| - 1] == a;
    assert DayTotal(ar, day) == Add(DayTotal(a, day), c);
    var x, y := DayTotal(a, day), DayTotal(b, day);
    assert Add(Add(x, c), y) == Add(Add(x, y), c);
  }

  /** ... and it adds its own day, and no other, to the set of days. */
  lemma InsertRecordDays(a: seq<Record>, r: Record, b: seq<Record>)
    ensures Days(a + [r] + b) == Days(a + b) + (if Bucketed(r) then {DayOf(r)} else {})
  {
    var ab, arb := a + b, a + [r] + b;
    forall x | x in arb ensures x in ab || x == r { assert x in a + [r] || x in b; }
    forall x | x in ab ensures x in arb { assert x in a || x in b; }
    assert r in arb;
  }

  /** A record without a usable timestamp can be removed without changing the
      dictionary at all. */
  lemma UnbucketedIgnored(a: seq<Record>, r: Record, b: seq<Record>)
    requires !Bucketed(r)
    ensures DailyUsage(a + [r] + b) == DailyUsage(a + b)
  {
    forall day | day in Days(a + b) ensures DayTotal(a + [r] + b, day) == DayTotal(a + b, day) {
      InsertRecord(a, r, b, day);
    }
    InsertRecordDays(a, r, b);
  }

  // ---------------------------------------------------------------------
  // The trailing window: today, today - 1, ..., today - (period - 1).
  // A calendar day is an int; `dayKey` gives a day's isoformat() text.
  // ---------------------------------------------------------------------

  function WindowKey(dayKey: int -> string, today: int, i: int): string
  {
    dayKey(today - i)
  }

  /** The keys of the first n days of the window. */
  function WindowDays(dayKey: int -> string, today: int, n: nat): set<string>
  {
    if n == 0 then {} else WindowDays(dayKey, today, n - 1) + {WindowKey(dayKey, today, n - 1)}
  }

  /** isoformat() gives different days different keys; over a window that is
      all the model needs of it. */
  predicate DistinctWindow(dayKey: int -> string, today: int, n: nat)
  {
    forall i, j :: 0 <= i < j < n ==> WindowKey(dayKey, today, i) != WindowKey(dayKey, today, j)
  }

  /** At most n buckets are ever looked at, however many days the data has. */
  lemma {:induction false} WindowDaysBound(dayKey: int -> string, today: int, n: nat)
    ensures |WindowDays(dayKey, today, n)| <= n
    ensures DistinctWindow(dayKey, today, n) ==> |WindowDays(dayKey, today, n)| == n
  {
    if n > 0 {
      WindowDaysBound(dayKey, today, n - 1);
      var k := WindowKey(dayKey, today, n - 1);
      if DistinctWindow(dayKey, today, n) {
        assert DistinctWindow(dayKey, today, n - 1);
        assert k !in WindowDays(dayKey, today, n - 1) by {
          WindowDaysMembers(dayKey, today, n - 1, k);
        }
      }
    }
  }

  lemma {:induction false} WindowDaysMembers(dayKey: int -> string, today: int, n: nat, day: string)
    ensures day in WindowDays(dayKey, today, n) <==> exists i :: 0 <= i < n && WindowKey(dayKey, today, i) == day
  {
    if n > 0 {
      WindowDaysMembers(dayKey, today, n - 1, day);
    }
  }

  /** The sum of `metric` over the first n days of the window, a day with no
      bucket adding 0: what the `for i in range(period)` loop accumulates. */
  function MapWindow(daily: map<string, Totals>, metric: Metric, dayKey: int -> string, today: int, n: nat): real
  {
    if n == 0 then 0.0
    else MapWindow(daily, metric, dayKey, today, n - 1) + Field(Lookup(daily, WindowKey(dayKey, today, n - 1)), metric)
  }

  /** The same sum read from the records' buckets. */
  function DaysWindow(rs: seq<Record>, metric: Metric, dayKey: int -> string, today: int, n: nat): real
  {
    if n == 0 then 0.0
    else DaysWindow(rs, metric, dayKey, today, n - 1) + Field(DayTotal(rs, WindowKey(dayKey, today, n - 1)), metric)
  }

  /** Reference definition: the metric summed over the records themselves,
      each record counted when its day is one of `days`. */
  function RecordsWindow(rs: seq<Record>, metric: Metric, days: set<string>): real
  {
    if rs == [] then 0.0
    else
      var last := rs[|rs| - 1];
      RecordsWindow(rs[..|rs| - 1], metric, days)
        + (if Bucketed(last) && DayOf(last) in days then Field(Contribution(last), metric) else 0.0)
  }

  lemma {:induction false} MapWindowIsDaysWindow(rs: seq<Record>, metric: Metric, dayKey: int -> string, today: int, n: nat)
    ensures MapWindow(DailyUsage(rs), metric, dayKey, today, n) == DaysWindow(rs, metric, dayKey, today, n)
  {
    if n > 0 {
      var daily := DailyUsage(rs);
      MapWindowIsDaysWindow(rs, metric, dayKey, today, n - 1);
      var k := WindowKey(dayKey, today, n - 1);
      LookupDaily(rs, k);
      assert MapWindow(daily, metric, dayKey, today, n)
          == MapWindow(daily, metric, dayKey, today, n - 1) + Field(Lookup(daily, k), metric);
    }
  }

  lemma {:induction false} DaysWindowSnoc(rs: seq<Record>, r: Record, metric: Metric, dayKey: int -> string, today: int, n: nat)
    requires DistinctWindow(dayKey, today, n)
    ensures DaysWindow(rs + [r], metric, dayKey, today, n) ==
      DaysWindow(rs, metric, dayKey, today, n)
        + (if Bucketed(r) && DayOf(r) in WindowDays(dayKey, today, n) then Field(Contribution(r), metric) else 0.0)
  {
    if n > 0 {
      assert DistinctWindow(dayKey, today, n - 1);
      DaysWindowSnoc(rs, r, metric, dayKey, today, n - 1);
      var k := WindowKey(dayKey, today, n - 1);
      var all := rs + [r];
      assert all[..|all| - 1] == rs;
      FieldAdd(DayTotal(rs, k), if Bucketed(r) && DayOf(r) == k then Contribution(r) else Zero, metric);
      if Bucketed(r) && DayOf(r) == k {
        WindowDaysMembers(dayKey, today, n - 1, k);
      }
    }
  }

  /** With distinct day keys (as isoformat() gives), the loop over the window
      of buckets sums exactly the records dated inside the window. */
  lemma {:induction false} WindowOverRecords(rs: seq<Record>, metric: Metric, dayKey: int -> string, today: int, n: nat)
    requires DistinctWindow(dayKey, today, n)
    ensures MapWindow(DailyUsage(rs), metric, dayKey, today, n) == RecordsWindow(rs, metric, WindowDays(dayKey, today, n))
  {
    MapWindowIsDaysWindow(rs, metric, dayKey, today, n);
    DaysWindowOverRecords(rs, metric, dayKey, today, n);
  }

  lemma {:induction false} DaysWindowOverRecords(rs: seq<Record>, metric: Metric, dayKey: int -> string, today: int, n: nat)
    requires DistinctWindow(dayKey, today, n)
    ensures DaysWindow(rs, metric, dayKey, today, n) == RecordsWindow(rs, metric, WindowDays(dayKey, today, n))
  {
    if rs == [] {
      DaysWindowEmpty(metric, dayKey, today, n);
    } else {
      var init := rs[..|rs| - 1];
      assert rs == init + [rs[|rs| - 1]];
      DaysWindowOverRecords(init, metric, dayKey, today, n);
      DaysWindowSnoc(init, rs[|rs| - 1], metric, dayKey, today, n);
    }
  }

  lemma {:induction false} DaysWindowEmpty(metric: Metric, dayKey: int -> string, today: int, n: nat)
    ensures DaysWindow([], metric, dayKey, today, n) == 0.0
  {
    if n > 0 { DaysWindowEmpty(metric, dayKey, today, n - 1); }
  }

  /** A record dated outside the window changes no window sum (no distinctness
      needed): buckets outside the window have no effect. */
  lemma {:induction false} OutsideWindowIgnored(a: seq<Record>, r: Record, b: seq<Record>, metric: Metric, dayKey: int -> string, today: int, n: nat)
    requires Bucketed(r) ==> DayOf(r) !in WindowDays(dayKey, today, n)
    ensures MapWindow(DailyUsage(a + [r] + b), metric, dayKey, today, n) == MapWindow(DailyUsage(a + b), metric, dayKey, today, n)
  {
    MapWindowIsDaysWindow(a + [r] + b, metric, dayKey, today, n);
    MapWindowIsDaysWindow(a + b, metric, dayKey, today, n);
    DaysWindowUnchanged(a, r, b, metric, dayKey, today, n);
  }

  lemma DaysWindowUnchanged(a: seq<Record>, r: Record, b: seq<Record>, metric: Metric, dayKey: int -> string, today: int, n: nat)
    requires Bucketed(r) ==> DayOf(r) !in WindowDays(dayKey, today, n)
    ensures DaysWindow(a + [r] + b, metric, dayKey, today, n) == DaysWindow(a + b, metric, dayKey, today, n)
  {
    var x, y := a + [r] + b, a + b;
    forall i | 0 <= i < n ensures DayTotal(x, WindowKey(dayKey, today, i)) == DayTotal(y, WindowKey(dayKey, today, i)) {
      WindowDaysMembers(dayKey, today, n, WindowKey(dayKey, today, i));
      InsertRecordOutside(a, r, b, WindowKey(dayKey, today, i));
    }
    DaysWindowCongruent(x, y, metric, dayKey, today, n);
  }

  /** Lists of records whose buckets agree on every day of the window agree
      on the window sum. */
  lemma {:induction false} DaysWindowCongruent(rs1: seq<Record>, rs2: seq<Record>, metric: Metric, dayKey: int -> string, today: int, n: nat)
    requires forall i :: 0 <= i < n ==> DayTotal(rs1, WindowKey(dayKey, today, i)) == DayTotal(rs2, WindowKey(dayKey, today, i))
    ensures DaysWindow(rs1, metric, dayKey, today, n) == DaysWindow(rs2, metric, dayKey, today, n)
  {
    if n > 0 {
      DaysWindowCongruent(rs1, rs2, metric, dayKey, today, n - 1);
    }
  }

  /** Inserting a record dated some other day leaves a day's bucket as it was. */
  lemma InsertRecordOutside(a: seq<Record>, r: Record, b: seq<Record>, day: string)
    requires !(Bucketed(r) && DayOf(r) == day)
    ensures DayTotal(a + [r] + b, day) == DayTotal(a + b, day)
  {
    InsertRecord(a, r, b, day);
    assert Add(DayTotal(a + b, day), Zero) == DayTotal(a + b, day);
  }

  // ---------------------------------------------------------------------
  // Model selection.
  // ---------------------------------------------------------------------

  /** `[d for d in data if d["model"] == model]`, order kept. */
  function Filter(data: seq<Record>, model: string): (rs: seq<Record>)
    ensures forall r :: r in rs <==> r in data && r.model == model
  {
    if data == [] then []
    else
      var last := data[|data| - 1];
      var init := Filter(data[..|data| - 1], model);
      assert forall r :: r in data <==> r in data[..|data| - 1] || r == last by {
        assert data == data[..|data| - 1] + [last];
      }
      if last.model == model then init + [last] else init
  }

  lemma {:induction false} FilterAppend(a: seq<Record>, b: seq<Record>, model: string)
    ensures Filter(a + b, model) == Filter(a, model) + Filter(b, model)
    decreases |b|
  {
    if b == [] {
      assert a + b == a;
    } else {
      var ab := a + b;
      assert ab[..|ab| - 1] == a + b[..|b| - 1];
      assert ab[|ab| - 1] == b[|b| - 1];
      FilterAppend(a, b[..|b| - 1], model);
    }
  }

  /** The records a sensor reads: all of them for the aggregate sentinel,
      otherwise those of its own model. */
  function Selected(data: seq<Record>, model: string): (rs: seq<Record>)
    ensures model == AllModels ==> rs == data
    ensures model != AllModels ==> forall r :: r in rs <==> r in data && r.model == model
  {
    if model == AllModels then data else Filter(data, model)
  }

  /** The distinct models of the records, a set: enumeration order is the set's. */
  function ModelsIn(data: seq<Record>): set<string>
  {
    set r | r in data :: r.model
  }

  predicate Distinct(ms: seq<string>)
  {
    forall i, j :: 0 <= i < j < |ms| ==> ms[i] != ms[j]
  }

  /** The window sums of the models in ms, each over its own records, added. */
  function PerModelWindows(data: seq<Record>, ms: seq<string>, metric: Metric, days: set<string>): real
  {
    if ms == [] then 0.0
    else RecordsWindow(Filter(data, ms[0]), metric, days) + PerModelWindows(data, ms[1..], metric, days)
  }

  lemma {:induction false} PerModelWindowsSnoc(data: seq<Record>, r: Record, ms: seq<string>, metric: Metric, days: set<string>)
    requires Distinct(ms)
    ensures PerModelWindows(data + [r], ms, metric, days) ==
      PerModelWindows(data, ms, metric, days)
        + (if r.model in ms && Bucketed(r) && DayOf(r) in days then Field(Contribution(r), metric) else 0.0)
  {
    if ms != [] {
      var all := data + [r];
      assert all[..|all| - 1] == data;
      assert Distinct(ms[1..]);
      PerModelWindowsSnoc(data, r, ms[1..], metric, days);
      var f := Filter(all, ms[0]);
      if r.model == ms[0] {
        assert f[..|f| - 1] == Filter(data, ms[0]);
        assert r.model !in ms[1..];
      } else {
        assert r.model in ms <==> r.model in ms[1..];
      }
    }
  }

  /** Additivity across models: for every metric, the sum over all records
      equals the sum of the per-model sums over any list of distinct models
      that covers every record's model. */
  lemma {:induction false} ModelsAdd(data: seq<Record>, ms: seq<string>, metric: Metric, days: set<string>)
    requires Distinct(ms)
    requires forall r :: r in data ==> r.model in ms
    ensures PerModelWindows(data, ms, metric, days) == RecordsWindow(data, metric, days)
  {
    if data == [] {
      PerModelWindowsEmpty(ms, metric, days);
    } else {
      var init, last := data[..|data| - 1], data[|data| - 1];
      assert data == init + [last];
      forall r | r in init ensures r.model in ms { assert r in data; }
      ModelsAdd(init, ms, metric, days);
      PerModelWindowsSnoc(init, last, ms, metric, days);
    }
  }

  lemma {:induction false} PerModelWindowsEmpty(ms: seq<string>, metric: Metric, days: set<string>)
    ensures PerModelWindows([], ms, metric, days) == 0.0
  {
    if ms != [] { PerModelWindowsEmpty(ms[1..], metric, days); }
  }
}
