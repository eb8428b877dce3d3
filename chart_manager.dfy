/**
 * The chart lifecycle of chartManager.js: the bounded retry counter of
 * `renderChart`, the `destroyInProgress` flag of `clearChart`, the one
 * recorded chart instance, and the data series handed to the chart.
 * Chart instances are numbered; `live` is the set of instances that have
 * been created and not destroyed.
 */
module ChartManager {
  import opened Js
  import ModbusManager

  const MaxRetries: nat := 10

  /** The series and options a new chart is built from. */
  datatype ChartConfig = ChartConfig(labels: seq<string>, dataTons: seq<real>, peakLine: Option<real>)

  /** `chartData.length > 0 ? chartData.map(p => p.time) : ['']` */
  function Labels(chartData: seq<ModbusManager.Sample>): (r: seq<string>)
    ensures |r| == if |chartData| == 0 then 1 else |chartData|
    ensures |chartData| == 0 ==> r == [""]
    ensures forall i :: 0 <= i < |chartData| ==> r[i] == chartData[i].time
  {
    if |chartData| == 0 then [""] else seq(|chartData|, i requires 0 <= i < |chartData| => chartData[i].time)
  }

  /** `chartData.length > 0 ? chartData.map(p => p.loadTons) : [0]` */
  function DataTons(chartData: seq<ModbusManager.Sample>): (r: seq<real>)
    ensures |r| == if |chartData| == 0 then 1 else |chartData|
    ensures |chartData| == 0 ==> r == [0.0]
    ensures forall i :: 0 <= i < |chartData| ==> r[i] == chartData[i].loadTons
  {
    if |chartData| == 0 then [0.0] else seq(|chartData|, i requires 0 <= i < |chartData| => chartData[i].loadTons)
  }

  /** The chart built for `renderChart(chartData, peakValue)`. */
  function Config(chartData: seq<ModbusManager.Sample>, peakValue: real): (r: ChartConfig)
    ensures r.peakLine.Some? <==> peakValue > 0.0
    ensures r.peakLine.Some? ==> r.peakLine.value == peakValue
    ensures |r.labels| == |r.dataTons| >= 1
  {
    ChartConfig(Labels(chartData), DataTons(chartData), if peakValue > 0.0 then Some(peakValue) else None)
  }

  /** Labels and points pair up: point i is drawn at sample i's time. */
  lemma SeriesAligned(chartData: seq<ModbusManager.Sample>, peakValue: real)
    ensures var c := Config(chartData, peakValue);
      forall i :: 0 <= i < |chartData| ==>
        ModbusManager.Sample(c.labels[i], c.dataTons[i]) == chartData[i]
  {
  }

  class Chart {
    var retryAttempts: nat
    var destroyInProgress: bool
    /** The store's `chartInstance`. */
    var chartInstance: Option<nat>
    /** The configuration of each chart instance created so far. */
    var configs: seq<ChartConfig>
    /** Instances created and not destroyed. */
    var live: set<nat>
    /** Scheduled `renderChart` retries not yet run. */
    var pendingRetries: nat
    /** Scheduled 250 ms resets of `destroyInProgress` not yet run. */
    var pendingResets: nat
    /** The canvas size, set back to 800 x 300 by `clearChart`. */
    var canvasWidth: nat
    var canvasHeight: nat

    predicate Valid()
      reads this
    {
      && retryAttempts <= MaxRetries
      && (chartInstance.Some? ==> chartInstance.value < |configs|)
      && (forall id :: id in live ==> id < |configs|)
    }

    /** Every chart still alive is the recorded one. */
    predicate AtMostOneLive()
      reads this
    {
      live <= if chartInstance.Some? then {chartInstance.value} else {}
    }

    constructor()
      ensures Valid() && AtMostOneLive()
      ensures retryAttempts == 0 && !destroyInProgress && chartInstance == None
      ensures configs == [] && live == {} && pendingRetries == 0 && pendingResets == 0
    {
      retryAttempts := 0;
      destroyInProgress := false;
      chartInstance := None;
      configs := [];
      live := {};
      pendingRetries := 0;
      pendingResets := 0;
      canvasWidth := 300;
      canvasHeight := 150;
    }

    /**
     * `renderChart(chartData, peakValue)`. `canvasReady` is whether the
     * canvas element exists; `destroyOk` whether destroying the recorded
     * chart succeeds; `createOk` whether `new Chart(...)` succeeds.
     */
    method RenderChart(chartData: seq<ModbusManager.Sample>, peakValue: real,
                       canvasReady: bool, destroyOk: bool, createOk: bool)
      requires Valid()
      modifies this
      ensures Valid()
      ensures old(AtMostOneLive()) && destroyOk ==> AtMostOneLive()
      ensures destroyInProgress == old(destroyInProgress) && pendingResets == old(pendingResets)
      ensures canvasWidth == old(canvasWidth) && canvasHeight == old(canvasHeight)
      ensures !canvasReady || old(destroyInProgress) ==>
        && chartInstance == old(chartInstance) && live == old(live) && configs == old(configs)
        && (old(retryAttempts) < MaxRetries ==>
              retryAttempts == old(retryAttempts) + 1 && pendingRetries == old(pendingRetries) + 1)
        && (old(retryAttempts) >= MaxRetries ==>
              retryAttempts == 0 && pendingRetries == old(pendingRetries))
      ensures canvasReady && !old(destroyInProgress) ==>
        && retryAttempts == 0 && pendingRetries == old(pendingRetries)
        && var destroyed := if old(chartInstance).Some? && destroyOk
                            then old(live) - {old(chartInstance).value} else old(live);
        && (createOk ==>
              && configs == old(configs) + [Config(chartData, peakValue)]
              && chartInstance == Some(|old(configs)|)
              && live == destroyed + {|old(configs)|})
        && (!createOk ==>
              && configs == old(configs) && live == destroyed
              && chartInstance == if old(chartInstance).Some? && destroyOk then None else old(chartInstance))
    {
      if !canvasReady || destroyInProgress {
        if retryAttempts < MaxRetries {
          retryAttempts := retryAttempts + 1;
          pendingRetries := pendingRetries + 1;
        } else {
          retryAttempts := 0;
        }
        return;
      }
      retryAttempts := 0;
      if chartInstance.Some? && destroyOk {
        live := live - {chartInstance.value};
        chartInstance := None;
      }
      if createOk {
        var id := |configs|;
        configs := configs + [Config(chartData, peakValue)];
        live := live + {id};
        chartInstance := Some(id);
      }
    }

    /** A scheduled retry runs: `renderChart` again with the same arguments. */
    method RetryFired(chartData: seq<ModbusManager.Sample>, peakValue: real,
                      canvasReady: bool, destroyOk: bool, createOk: bool)
      requires Valid() && pendingRetries > 0
      modifies this
      ensures Valid()
      ensures (!canvasReady || old(destroyInProgress)) && old(retryAttempts) < MaxRetries ==>
        retryAttempts == old(retryAttempts) + 1 && pendingRetries == old(pendingRetries)
      ensures (!canvasReady || old(destroyInProgress)) && old(retryAttempts) >= MaxRetries ==>
        retryAttempts == 0 && pendingRetries == old(pendingRetries) - 1
      ensures canvasReady && !old(destroyInProgress) ==>
        retryAttempts == 0 && pendingRetries == old(pendingRetries) - 1
    {
      pendingRetries := pendingRetries - 1;
      RenderChart(chartData, peakValue, canvasReady, destroyOk, createOk);
    }

    /**
     * `clearChart()`. `canvasPresent` is whether the canvas (with a 2D
     * context) exists; `destroyOk` whether destroying the recorded chart
     * succeeds. However it ends, a reset of `destroyInProgress` is scheduled.
     */
    method ClearChart(canvasPresent: bool, destroyOk: bool)
      requires Valid()
      modifies this
      ensures Valid()
      ensures old(AtMostOneLive()) && destroyOk ==> AtMostOneLive()
      ensures destroyInProgress
      ensures pendingResets == old(pendingResets) + 1
      ensures old(chartInstance).Some? && destroyOk ==>
        chartInstance == None && live == old(live) - {old(chartInstance).value}
      ensures !(old(chartInstance).Some? && destroyOk) ==>
        chartInstance == old(chartInstance) && live == old(live)
      ensures canvasPresent ==> canvasWidth == 800 && canvasHeight == 300
      ensures !canvasPresent ==> canvasWidth == old(canvasWidth) && canvasHeight == old(canvasHeight)
      ensures retryAttempts == old(retryAttempts) && configs == old(configs)
      ensures pendingRetries == old(pendingRetries)
    {
      destroyInProgress := true;
      var instance := chartInstance;
      if instance.Some? && destroyOk {
        live := live - {instance.value};
        chartInstance := None;
      }
      if instance.None? && !canvasPresent {
        pendingResets := pendingResets + 1;
        return;
      }
      if canvasPresent {
        canvasWidth := 800;
        canvasHeight := 300;
      }
      pendingResets := pendingResets + 1;
    }

    /** The 250 ms timer set by `clearChart` runs out. */
    method ResetFired()
      requires Valid() && pendingResets > 0
      modifies this
      ensures Valid()
      ensures !destroyInProgress && pendingResets == old(pendingResets) - 1
      ensures retryAttempts == old(retryAttempts) && chartInstance == old(chartInstance)
      ensures configs == old(configs) && live == old(live) && pendingRetries == old(pendingRetries)
      ensures canvasWidth == old(canvasWidth) && canvasHeight == old(canvasHeight)
    {
      destroyInProgress := false;
      pendingResets := pendingResets - 1;
    }
  }
}
