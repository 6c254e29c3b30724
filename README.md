# OpenAI usage sensors: a Dafny model of the aggregation engine

This project models the usage-aggregation engine of the OpenAI Usage integration
for Home Assistant (`custom_components/openai_usage/sensor.py`). The engine
turns the flat list of usage records that the coordinator fetched into numeric
readings:

- **`async_setup_entry`** enumerates the sensors. It collects the distinct model
  names of the records and adds the sentinel `all_models`. For every model and
  every metric (`cost`, `requests`, `input_tokens`, `output_tokens`) it creates
  one absolute sensor per period (1, 7, 30, 90, 365 days). For `cost` and
  `requests` it also creates one efficiency sensor per period.
- **`OpenAISensor`** has a display name, a unique id, a device grouping and a
  unit. Its `native_value` does four things:
  - it filters the records by model (`all_models` keeps them all);
  - it returns 0 when none remain;
  - it buckets the records by the day before the first `T` of their timestamp,
    skipping records whose timestamp is missing or empty, and sums `cost`,
    `n_requests`, `prompt_tokens` and `completion_tokens` per day (a missing
    field counts as 0);
  - it sums one metric over the days today, today − 1, …, today − (period − 1).
- **`OpenAIEfficiencySensor`** does the same bucketing. It then returns cost, or
  requests, per input-plus-output token over the same window, and 0 when no
  token was used.

Module layout:

- `wrappers.dfy` (module `Wrappers`) holds `Option`, for a field a record may lack, a unit a sensor may not have and a reading that is not available.
- `text.dfy` (module `Text`) holds the ASCII string operations behind the names, ids and unit-of-measurement tests:
  - `str()` of a period;
  - substring search (`in`);
  - `replace` and `title`.
- `usage.dfy` (module `Usage`) holds the usage records, the day key, the day buckets (`daily_usage`), the trailing window and the model filter.
- `sensors.dfy` (module `Sensors`) holds the two sensor classes.
  - A sensor never changes after construction, so it is a datatype.
  - Its name, unique id, device and unit are functions of it.
  - The two `native_value` bodies, which build `daily_usage` in place and accumulate totals in a loop, are methods with loops. Each is proved equal to a reading function, about which the remaining properties are proved.
- `catalog.dfy` (module `Catalog`) holds `async_setup_entry`: nested loops that append sensors to a list.

Modelling choices:

- **Today.**
  - `date.today()` is an integer parameter `today`.
  - A day's `isoformat()` text is a parameter `dayKey: int -> string`.
  - Where a property needs different days to have different keys, which `isoformat()` guarantees, it requires `DistinctWindow`.
- **Numbers.**
  - Costs are exact reals.
  - Request and token counts are integers.
  - A reading is a real.
  - The efficiency reading is `Option<real>`: `None` stands for the Python method falling off its end, for a metric other than cost or requests.
- **Records.**
  - A record's fields are `Option`s, because `.get` may find them missing.
  - The model field is a string, not an `Option`. The code indexes `item["model"]`, so a missing key raises; a null model value is not represented (see "## Left out").

Where the code and the repository's own description differ, the model follows the code:

- A timestamp with no `T` is not skipped. `split("T")[0]` keeps the whole string as the day (`Usage.BeforeT`).
- A record without a model key is not ignored. The code indexes `item["model"]`, so the key is required.

## Model

| member | source | states |
|---|---|---|
| `Usage.BeforeT` | custom_components/openai_usage/sensor.py:77 | The day is a prefix of the timestamp with no `T` in it. It stops just before the first `T`. It is the whole timestamp when there is no `T`. |
| `Usage.BuildDailyUsage` | custom_components/openai_usage/sensor.py:73-83 | The bucketing loop builds exactly `DailyUsage`: one bucket per day that some record with a timestamp carries, holding the sum of those records' contributions (missing fields as 0). |
| `Usage.DailyUsageSnoc` | custom_components/openai_usage/sensor.py:74-83 | One loop step. A record with a non-empty timestamp adds its contribution to its own day's bucket, which starts at zeros when absent. Any other record leaves the dictionary unchanged. |
| `Usage.LookupDaily` | custom_components/openai_usage/sensor.py:88-89 | Looking a day up gives the sum over that day's records, and zeros for a day no record carries. |
| `Usage.DayTotalAppend` | custom_components/openai_usage/sensor.py:78-83 | A bucket is additive over concatenated record lists. |
| `Usage.InsertRecord` | custom_components/openai_usage/sensor.py:77-83 | Inserting a record anywhere in the list changes only its own day's bucket, by its contribution. A record with no usable timestamp changes no bucket. |
| `Usage.InsertRecordDays` | custom_components/openai_usage/sensor.py:77-79 | Inserting a record adds its own day, and only that day, to the set of buckets. An unbucketed record adds none. |
| `Usage.UnbucketedIgnored` | custom_components/openai_usage/sensor.py:75-76 | A record whose timestamp is missing or empty can be removed without changing `daily_usage`. |
| `Usage.WindowDaysBound` | custom_components/openai_usage/sensor.py:86-88 | At most `period` buckets are looked at. With distinct day keys there are exactly `period`. |
| `Usage.WindowDaysMembers` | custom_components/openai_usage/sensor.py:86-87 | The window holds exactly the keys of `today - i` for `0 <= i < period`. |
| `Usage.MapWindowIsDaysWindow` | custom_components/openai_usage/sensor.py:85-89 | Summing over the dictionary, with missing days adding 0, equals summing the per-day record sums over the window. |
| `Usage.WindowOverRecords` | custom_components/openai_usage/sensor.py:85-89 | With distinct day keys, the window sum over `daily_usage` equals the metric summed directly over the records dated inside the window. |
| `Usage.DaysWindowOverRecords` | custom_components/openai_usage/sensor.py:86-89 | With distinct day keys, the per-day window sum equals the record-level reference sum. |
| `Usage.OutsideWindowIgnored` | custom_components/openai_usage/sensor.py:85-89 | A record dated outside the window, or not dated at all, leaves the window sum unchanged. No key distinctness is needed. |
| `Usage.DaysWindowUnchanged` | custom_components/openai_usage/sensor.py:86-89 | Inserting a record dated outside the window keeps every per-day window sum. |
| `Usage.InsertRecordOutside` | custom_components/openai_usage/sensor.py:78-83 | Inserting a record dated on another day leaves a day's bucket as it was. |
| `Usage.Filter` | custom_components/openai_usage/sensor.py:68 | The list comprehension keeps exactly the records whose model equals the sensor's. |
| `Usage.FilterAppend` | custom_components/openai_usage/sensor.py:68 | Filtering distributes over concatenation and keeps the order. |
| `Usage.Selected` | custom_components/openai_usage/sensor.py:65-68 | `all_models` reads every record. Any other model reads exactly the records of that model. |
| `Usage.ModelsAdd` | custom_components/openai_usage/sensor.py:18 | For any list of distinct models covering every record's model, the per-model window sums add up to the sum over all records. |
| `Usage.PerModelWindowsSnoc` | custom_components/openai_usage/sensor.py:65-68 | A new record adds its contribution to exactly one model's sum, its own. |
| `Sensors.AbsoluteValue` | custom_components/openai_usage/sensor.py:62-91 | `OpenAISensor.native_value` (filter, empty guard, bucketing loop, window loop) returns `AbsoluteReading`. |
| `Sensors.EfficiencyValue` | custom_components/openai_usage/sensor.py:122-161 | `OpenAIEfficiencySensor.native_value` returns `EfficiencyReading`. That is 0 for no records or no tokens, the ratio for cost or requests, and nothing for another metric. |
| `Sensors.EfficiencyTotals` | custom_components/openai_usage/sensor.py:145-153 | The window loop accumulates the cost, the requests and the input plus output tokens of the same days. |
| `Sensors.EmptyGuardRedundant` | custom_components/openai_usage/sensor.py:69-70 | The empty-selection guard returns what the window sum would return anyway: 0. |
| `Sensors.EfficiencyGuardRedundant` | custom_components/openai_usage/sensor.py:129-130 | The same for the efficiency sensor: with no records there are no tokens, and the zero-token branch gives 0 too. |
| `Sensors.AbsoluteOverRecords` | custom_components/openai_usage/sensor.py:64-89 | With distinct day keys, the absolute reading is the metric summed over the sensor's records dated in the window. Those are all records for `all_models` and the model's own otherwise, and the sum is 0 when there are none. |
| `Sensors.EfficiencyIsRatio` | custom_components/openai_usage/sensor.py:145-161 | The efficiency reading is the absolute cost (or requests) reading of the same model and period divided by the input-token plus output-token readings. It is 0 when those are 0. |
| `Sensors.SumOfModelReadingsOverRecords` | custom_components/openai_usage/sensor.py:64-89 | The sum of per-model readings equals the sum of per-model record windows. |
| `Sensors.AllModelsIsSumOfModels` | custom_components/openai_usage/sensor.py:18-19 | Additivity across models. For every metric, the `all_models` reading equals the sum of the readings of any distinct models that cover every record. |
| `Sensors.SelectedInsert` | custom_components/openai_usage/sensor.py:65-68 | Selection distributes over concatenation. A single record is selected exactly when the sensor is `all_models` or of its model. |
| `Sensors.UnbucketedRecordIgnored` | custom_components/openai_usage/sensor.py:74-76 | Removing a record with a missing or empty timestamp changes no reading of either kind. |
| `Sensors.OutsideWindowRecordIgnored` | custom_components/openai_usage/sensor.py:85-89 | Removing a record dated outside a sensor's window changes no reading of either kind. |
| `Sensors.SelectedOutsideWindow` | custom_components/openai_usage/sensor.py:148-153 | A record outside the window leaves every metric's window sum over the selection unchanged. |
| `Sensors.SameWindowsSameReadings` | custom_components/openai_usage/sensor.py:85-91 | The readings of both kinds depend on the records only through the window sums of the selection. |
| `Sensors.DisplayModelAllModels` | custom_components/openai_usage/sensor.py:40 | The display name shows "All Models" exactly for `all_models`, or for a model already called that. |
| `Sensors.MetricTitles` | custom_components/openai_usage/sensor.py:102 | `metric.replace('_',' ').title()` gives "Cost", "Requests", "Input Tokens" and "Output Tokens". |
| `Sensors.NamePrefix` | custom_components/openai_usage/sensor.py:40 | A display name opens with `OpenAI All Models ` for the aggregate and with `OpenAI <model> ` for any other model. |
| `Sensors.NameSuffix` | custom_components/openai_usage/sensor.py:40 | A display name ends with ` Days`. |
| `Sensors.NameKinds` | custom_components/openai_usage/sensor.py:102 | The efficiency name of a model, metric and period is 11 characters (` Efficiency`) longer than the absolute one, so the two never coincide. |
| `Sensors.NameOfAggregate` | custom_components/openai_usage/sensor.py:40 | The 7-day cost sensor of the aggregate is named `OpenAI All Models Cost Last 7 Days`. |
| `Sensors.NameOfModelEfficiency` | custom_components/openai_usage/sensor.py:102 | The 1-day cost efficiency sensor of model `o1` is named `OpenAI o1 Cost Efficiency Last 1 Days`. |
| `Sensors.Units` | custom_components/openai_usage/sensor.py:52-60 | Absolute units are `$`, `calls` and `tokens` for both token metrics, from substring tests in the order tokens, cost, requests. Efficiency units are `$/token` and `requests/token`, and none for the token metrics. |
| `Sensors.RequestsUnit` | custom_components/openai_usage/sensor.py:54-59 | "requests" contains neither "tokens" nor "cost", so the third test decides and gives `calls`. |
| `Sensors.DeviceGrouping` | custom_components/openai_usage/sensor.py:43-50 | The device is `{entry_id}_{model}` (the `all_models` branch gives the same text), named `OpenAI <display model>`, manufacturer `OpenAI`, device model `Aggregate` for `all_models` and the model name otherwise. Within one entry, two sensors share a device exactly when they share a model. |
| `Sensors.StripPeriod` | custom_components/openai_usage/sensor.py:41 | The period is recovered from the text after the id's last underscore. |
| `Sensors.StripEfficiency` | custom_components/openai_usage/sensor.py:103 | The `_eff` marker is present exactly for efficiency sensors, because no metric name ends in it. |
| `Sensors.MetricFromEnd` | custom_components/openai_usage/sensor.py:41 | The metric is recovered from the end of `{entry_id}_{model}_{metric}`, because no metric name is an underscore-suffix of another. |
| `Sensors.UniqueIdInjective` | custom_components/openai_usage/sensor.py:41 | Within one entry a unique id determines the sensor (kind, model, metric, period), whatever underscores the model name has. |
| `Text.Decimal` | custom_components/openai_usage/sensor.py:41 | `str(period)` is a non-empty string of decimal digits, with more than one digit exactly from 10 on, and without a leading zero for a positive period. |
| `Text.DecimalRoundTrip` | custom_components/openai_usage/sensor.py:41 | Reading the period's digits back gives the period. |
| `Text.DecimalInjective` | custom_components/openai_usage/sensor.py:103 | Different periods print differently. |
| `Text.Contains` | custom_components/openai_usage/sensor.py:54 | `t in s` is true exactly when `t` occurs as a contiguous block of `s`. |
| `Text.TitleOfSnake` | custom_components/openai_usage/sensor.py:40 | Title-casing a one- or two-word lower-case snake_case name after replacing `_` by a space capitalises each word. |
| `Text.TitleOfWords` | custom_components/openai_usage/sensor.py:102 | `title()` works word by word across a space. |
| `Text.TitleOfWord` | custom_components/openai_usage/sensor.py:40 | `title()` of a lower-case word capitalises its first letter only. |
| `Catalog.Models` | custom_components/openai_usage/sensor.py:18-19 | The models are exactly `all_models` and the model of every record. |
| `Catalog.SetupEntry` | custom_components/openai_usage/sensor.py:12-29 | The setup creates exactly the sensors of the catalog, each once: one absolute sensor per model, metric and period, and one efficiency sensor per model, period and metric among cost and requests. That is 30 per model, 20 absolute and 10 efficiency. No two share a unique id, whatever order the model set is enumerated in. |
| `Catalog.AddModelSensors` | custom_components/openai_usage/sensor.py:22-27 | The metric loop for one model appends, metric by metric, the absolute row and then the efficiency row for cost and requests. |
| `Catalog.AddRow` | custom_components/openai_usage/sensor.py:23-24 | A period loop appends one sensor per period, in the order of `SENSOR_PERIODS`. |
| `Catalog.ModelSensorsFacts` | custom_components/openai_usage/sensor.py:21-27 | One model's block holds exactly its sensors of every metric and period, with efficiency only for cost and requests. They are all different, 30 in all. |
| `Catalog.ModelSensorsCounts` | custom_components/openai_usage/sensor.py:22-27 | One model's block has 5 absolute sensors per metric and 5 efficiency sensors for each of cost and requests. |
| `Catalog.CatalogStep` | custom_components/openai_usage/sensor.py:21 | Handling one more model keeps the list exactly the catalog of the models handled so far, without duplicates and with the right counts. |
| `Catalog.UniqueIdsDistinct` | custom_components/openai_usage/sensor.py:24 | Different sensors of one entry have different unique ids. |
| `Catalog.EmptyDataCatalog` | custom_components/openai_usage/sensor.py:19 | With no records, only the `all_models` sensors exist. |
| `Catalog.MetricIndex` | custom_components/openai_usage/sensor.py:10 | Every metric has its place in `METRICS`. |

## Left out

- `api.py` (the HTTP client), `config_flow.py` (the UI form and its credential check) and `__init__.py` (the coordinator, its scheduling, and the normalisation of the response into a list) are not part of this model. They are network I/O, UI and framework wiring.
- Home Assistant's `CoordinatorEntity`/`SensorEntity`, `hass.data` and `async_add_entities` are foreign framework code. The setup returns the sensor list instead of handing it to `async_add_entities`.
- `date.today()`, `timedelta` and `isoformat()` become the parameters `today` and `dayKey`. The calendar is not modelled. Injectivity of `isoformat()` over the window is a precondition (`DistinctWindow`) where it matters.
- `float(...)` and `int(...)` parsing is not modelled.
  - Record fields already hold numbers.
  - A field that is present with a null or non-numeric value makes the Python code raise; that case is not modelled.
- Rounding is not modelled: `round(total, 4)` for cost readings and `round(x, 6)` for efficiency readings. Readings are exact reals, and Python's `0` against `0.0` is not distinguished.
- `Text.Title` and `Text.ToUpper` are ASCII only. Python's `str.title()` on other scripts is not modelled.
- The first component of the device identifier pair is the integration's domain from `const.py`, and `const.py` is not part of this model. Only the second component is kept.
- `Catalog.SetupEntry` does not state the order of the created list. Python enumerates the model set in hash order, so the model picks an arbitrary remaining model each round, and its contract is order-independent.
- `Sensors.AllModelsIsSumOfModels` requires that `all_models` is not among the listed models, so it says nothing about data holding a record whose model is literally `all_models`. The setup's model set keeps a single `all_models` entry (sensor.py:18-19), and that sensor takes the all-records branch (sensor.py:65-66), so such a record has no per-model sensor of its own. Listing `all_models` among the models would add the whole aggregate to the sum a second time.
- `Sensors.UniqueIdInjective` and `Sensors.DeviceGrouping` do not cover a record whose `model` value is JSON null. Python formats it as the text `None`, giving the name `OpenAI None ...`, the device `{entry_id}_None` and ids such as `{entry_id}_None_cost_1`. Such sensors would collide with those of a model literally named `"None"`. `Usage.Record.model` is a string, so null model values and this collision are not modelled.
- `Sensors.EfficiencyValue` returns `None` for a metric other than cost or requests, where the Python code falls off its end. The catalog never creates such a sensor.
- The "extra" global readings (all-time cost, today's requests, per-1k-token efficiency) and any skipping of records without a model appear nowhere in the code, so they are not modelled.
