/** The dashboard's system page (`routes/system/route.tsx`): it turns each monitor
    message pushed by the server into a history point, keeps the ten newest
    points (newest first), and recomputes the peak and mean CPU and memory usage
    over them. Percentages are exact reals here. */
module SystemRoute {

  /** `mem_info` of a monitor message, in kilobytes. */
  datatype MemInfo = MemInfo(memTotal: int, memFree: int)

  /** `SystemMonitorMessage`: one decoded server event. */
  datatype SystemMonitorMessage = SystemMonitorMessage(totalCpuUsage: real, memInfo: MemInfo)

  /** `HistoricalData`: one chart point. `timestamp` is the display time of
      receipt and `time` its epoch milliseconds; both are supplied by the caller. */
  datatype HistoricalData = HistoricalData(timestamp: string, cpuUsage: real, memoryUsage: real, time: int)

  /** The page's `initialState`, shown until the first message arrives. */
  const InitialState: SystemMonitorMessage := SystemMonitorMessage(0.0, MemInfo(0, 0))

  /** How many points the history keeps. */
  const HistoryCapacity: nat := 10

  /** The memory percentage `handleSystemData` records: used over total, or 0
      unless the total is positive. */
  function MemoryUsagePercent(info: MemInfo): (r: real)
    ensures info.memTotal > 0 ==>
      r * info.memTotal as real == (info.memTotal - info.memFree) as real * 100.0
    ensures info.memTotal <= 0 ==> r == 0.0
  {
    if info.memTotal > 0 then
      (info.memTotal - info.memFree) as real / info.memTotal as real * 100.0
    else 0.0
  }

  /** `getMemoryUsed`: the kilobytes in use. */
  function GetMemoryUsed(info: MemInfo): (r: int)
    ensures r + info.memFree == info.memTotal
  {
    info.memTotal - info.memFree
  }

  /** `getMemoryUsage`: the memory card's percentage, 0 for a zero total. */
  function GetMemoryUsage(info: MemInfo): (r: real)
    ensures info.memTotal == 0 ==> r == 0.0
    ensures info.memTotal != 0 ==> r * info.memTotal as real == GetMemoryUsed(info) as real * 100.0
  {
    if info.memTotal == 0 then 0.0
    else (info.memTotal - info.memFree) as real / info.memTotal as real * 100.0
  }

  /** The card and the history agree on every message whose total is not negative. */
  lemma MemoryViewsAgree(info: MemInfo)
    requires info.memTotal >= 0
    ensures GetMemoryUsage(info) == MemoryUsagePercent(info)
  {
  }

  /** With no more free memory than total memory, the percentage is between 0 and 100. */
  lemma MemoryUsagePercentInRange(info: MemInfo)
    requires 0 <= info.memFree <= info.memTotal
    ensures 0.0 <= MemoryUsagePercent(info) <= 100.0
  {
    if info.memTotal > 0 {
      var total := info.memTotal as real;
      var used := (info.memTotal - info.memFree) as real;
      var r := MemoryUsagePercent(info);
      assert r * total == used * 100.0;
      assert 0.0 <= used <= total;
    }
  }

  /** The point `handleSystemData` makes of a message received at `timestamp` / `now`. */
  function NewDataPoint(data: SystemMonitorMessage, timestamp: string, now: int): HistoricalData
  {
    HistoricalData(timestamp, data.totalCpuUsage, MemoryUsagePercent(data.memInfo), now)
  }

  /** `[newDataPoint, ...prev].slice(0, 10)`: the new point first, then as many of
      the previous points, in their order, as fit; the oldest ones fall off. */
  function PrependBounded(point: HistoricalData, prev: seq<HistoricalData>): (r: seq<HistoricalData>)
    ensures |r| == if |prev| + 1 < HistoryCapacity then |prev| + 1 else HistoryCapacity
    ensures r[0] == point
    ensures r[1..] == prev[..|r| - 1]
  {
    var all := [point] + prev;
    var r := if |all| < HistoryCapacity then all else all[..HistoryCapacity];
    assert r[1..] == all[1..|r|];
    r
  }

  /** The history after `points` arrive, oldest first, starting from `history`. */
  function IngestAll(history: seq<HistoricalData>, points: seq<HistoricalData>): seq<HistoricalData>
    decreases |points|
  {
    if points == [] then history else IngestAll(PrependBounded(points[0], history), points[1..])
  }

  /** Position `i` of the history after `points` arrive on top of `history`:
      the newest points first, then the earlier history. */
  function Arrived(history: seq<HistoricalData>, points: seq<HistoricalData>, i: nat): HistoricalData
    requires i < |points| + |history|
  {
    if i < |points| then points[|points| - 1 - i] else history[i - |points|]
  }

  /** Ingesting one more point shifts every later position by one. */
  lemma ArrivedStep(history: seq<HistoricalData>, points: seq<HistoricalData>, i: nat)
    requires points != [] && |history| <= HistoryCapacity
    requires i < |PrependBounded(points[0], history)| + |points| - 1
    ensures i < |points| + |history|
    ensures Arrived(PrependBounded(points[0], history), points[1..], i) == Arrived(history, points, i)
  {
    var next := PrependBounded(points[0], history);
    var rest := points[1..];
    if i < |rest| {
      assert rest[|rest| - 1 - i] == points[|points| - 1 - i];
    } else if i > |rest| {
      assert next[i - |rest|] == next[1..][i - |points|];
    }
  }

  /** However many points arrive, the history holds the newest ones, newest first,
      followed by what is left of the earlier history, and never more than ten. */
  lemma {:induction false} IngestAllKeepsNewest(history: seq<HistoricalData>, points: seq<HistoricalData>)
    requires |history| <= HistoryCapacity
    ensures var w := IngestAll(history, points);
      && |w| == (if |points| + |history| < HistoryCapacity then |points| + |history| else HistoryCapacity)
      && forall i: nat :: i < |w| ==> i < |points| + |history| && w[i] == Arrived(history, points, i)
    decreases |points|
  {
    if points != [] {
      var next := PrependBounded(points[0], history);
      IngestAllKeepsNewest(next, points[1..]);
      forall i: nat | i < |IngestAll(history, points)|
        ensures i < |points| + |history| && IngestAll(history, points)[i] == Arrived(history, points, i)
      {
        ArrivedStep(history, points, i);
      }
    }
  }

  /** From an empty history: exactly the last min(n, 10) points, newest first. */
  lemma HistoryHoldsLastTen(points: seq<HistoricalData>)
    ensures var w := IngestAll([], points);
      && |w| == (if |points| < HistoryCapacity then |points| else HistoryCapacity)
      && forall i :: 0 <= i < |w| ==> w[i] == points[|points| - 1 - i]
  {
    IngestAllKeepsNewest([], points);
    var w := IngestAll([], points);
    forall i | 0 <= i < |w| ensures w[i] == points[|points| - 1 - i] {
      assert w[i] == Arrived([], points, i);
    }
  }

  /** `updated.map((d) => d.cpu_usage)`. */
  function CpuValues(h: seq<HistoricalData>): (r: seq<real>)
    ensures |r| == |h| && forall i :: 0 <= i < |h| ==> r[i] == h[i].cpuUsage
  {
    seq(|h|, i requires 0 <= i < |h| => h[i].cpuUsage)
  }

  /** `updated.map((d) => d.memory_usage)`. */
  function MemoryValues(h: seq<HistoricalData>): (r: seq<real>)
    ensures |r| == |h| && forall i :: 0 <= i < |h| ==> r[i] == h[i].memoryUsage
  {
    seq(|h|, i requires 0 <= i < |h| => h[i].memoryUsage)
  }

  /** `Math.max(...values)` on a non-empty list: no value exceeds it. */
  function Max(values: seq<real>): (m: real)
    requires values != []
    ensures forall i :: 0 <= i < |values| ==> values[i] <= m
  {
    if |values| == 1 then values[0]
    else
      var m := Max(values[1..]);
      assert forall i :: 1 <= i < |values| ==> values[i] == values[1..][i - 1];
      if values[0] > m then values[0] else m
  }

  /** The maximum is one of the values, so it is the least upper bound. */
  lemma {:induction false} MaxIsAttained(values: seq<real>)
    requires values != []
    ensures Max(values) in values
    decreases |values|
  {
    if |values| > 1 {
      MaxIsAttained(values[1..]);
    }
  }

  /** `values.reduce((a, b) => a + b, 0)`, added from the left. */
  function Sum(values: seq<real>): real
  {
    if values == [] then 0.0 else Sum(values[..|values| - 1]) + values[|values| - 1]
  }

  /** The arithmetic mean: the sum over the count. */
  function Average(values: seq<real>): (r: real)
    requires values != []
    ensures r * |values| as real == Sum(values)
  {
    Sum(values) / |values| as real
  }

  lemma {:induction false} SumAtMost(values: seq<real>, hi: real)
    requires forall i :: 0 <= i < |values| ==> values[i] <= hi
    ensures Sum(values) <= |values| as real * hi
    decreases |values|
  {
    if values != [] {
      SumAtMost(values[..|values| - 1], hi);
    }
  }

  lemma {:induction false} SumAtLeast(values: seq<real>, lo: real)
    requires forall i :: 0 <= i < |values| ==> lo <= values[i]
    ensures |values| as real * lo <= Sum(values)
    decreases |values|
  {
    if values != [] {
      SumAtLeast(values[..|values| - 1], lo);
    }
  }

  /** A mean is at most any bound on every value. */
  lemma AverageAtMost(values: seq<real>, hi: real)
    requires values != []
    requires forall i :: 0 <= i < |values| ==> values[i] <= hi
    ensures Average(values) <= hi
  {
    SumAtMost(values, hi);
    var n := |values| as real;
    assert Average(values) * n == Sum(values);
  }

  /** A mean is at least any bound under every value. */
  lemma AverageAtLeast(values: seq<real>, lo: real)
    requires values != []
    requires forall i :: 0 <= i < |values| ==> lo <= values[i]
    ensures lo <= Average(values)
  {
    SumAtLeast(values, lo);
    var n := |values| as real;
    assert Average(values) * n == Sum(values);
  }

  /** The mean never exceeds the peak. */
  lemma AverageAtMostMax(values: seq<real>)
    requires values != []
    ensures Average(values) <= Max(values)
  {
    AverageAtMost(values, Max(values));
  }

  /** When every recorded usage is a percentage, so are the four aggregates. */
  lemma AggregatesArePercentages(h: seq<HistoricalData>)
    requires h != []
    requires forall i :: 0 <= i < |h| ==> 0.0 <= h[i].cpuUsage <= 100.0 && 0.0 <= h[i].memoryUsage <= 100.0
    ensures 0.0 <= Average(CpuValues(h)) <= Max(CpuValues(h)) <= 100.0
    ensures 0.0 <= Average(MemoryValues(h)) <= Max(MemoryValues(h)) <= 100.0
  {
    var cpu, memory := CpuValues(h), MemoryValues(h);
    AverageAtLeast(cpu, 0.0);
    AverageAtMostMax(cpu);
    MaxIsAttained(cpu);
    AverageAtLeast(memory, 0.0);
    AverageAtMostMax(memory);
    MaxIsAttained(memory);
  }

  /** `getStatusColor`: green below 50, yellow from 50 below 80, red from 80. */
  function GetStatusColor(usage: real): (r: string)
    ensures r == "text-green-600" <==> usage < 50.0
    ensures r == "text-yellow-600" <==> 50.0 <= usage < 80.0
    ensures r == "text-red-600" <==> 80.0 <= usage
  {
    if usage < 50.0 then "text-green-600"
    else if usage < 80.0 then "text-yellow-600"
    else "text-red-600"
  }

  /** The badge props `getStatusBadge` returns. */
  datatype StatusBadge = StatusBadge(variant: string, text: string)

  /** `getStatusBadge`: Normal below 50, Moderate from 50 below 80, High from 80. */
  function GetStatusBadge(usage: real): (r: StatusBadge)
    ensures r == StatusBadge("secondary", "Normal") <==> usage < 50.0
    ensures r == StatusBadge("default", "Moderate") <==> 50.0 <= usage < 80.0
    ensures r == StatusBadge("destructive", "High") <==> 80.0 <= usage
  {
    if usage < 50.0 then StatusBadge("secondary", "Normal")
    else if usage < 80.0 then StatusBadge("default", "Moderate")
    else StatusBadge("destructive", "High")
  }

  /** The badge and the colour use the same thresholds: every usage gets a
      matching pair. */
  lemma StatusBadgeMatchesColor(usage: real)
    ensures GetStatusBadge(usage).text == "Normal" <==> GetStatusColor(usage) == "text-green-600"
    ensures GetStatusBadge(usage).text == "Moderate" <==> GetStatusColor(usage) == "text-yellow-600"
    ensures GetStatusBadge(usage).text == "High" <==> GetStatusColor(usage) == "text-red-600"
  {
  }

  /** The peak and mean CPU usage, then the peak and mean memory usage, of a
      history window; zeros for an empty one. */
  function WindowAggregates(h: seq<HistoricalData>): (r: (real, real, real, real))
    ensures h == [] ==> r == (0.0, 0.0, 0.0, 0.0)
    ensures h != [] ==> r.1 <= r.0 && r.3 <= r.2
  {
    if h == [] then (0.0, 0.0, 0.0, 0.0)
    else
      AverageAtMostMax(CpuValues(h));
      AverageAtMostMax(MemoryValues(h));
      (Max(CpuValues(h)), Average(CpuValues(h)), Max(MemoryValues(h)), Average(MemoryValues(h)))
  }

  /** The page's state: the latest message, the history window, the connection
      flag and the four aggregates shown on the cards. */
  class SystemMonitor {
    var systemData: SystemMonitorMessage
    var historicalData: seq<HistoricalData>
    var isConnected: bool
    var maxCpu: real
    var avgCpu: real
    var maxMemory: real
    var avgMemory: real

    /** The window is within capacity and the aggregates are those of the window
        (all zero before the first message). */
    ghost predicate Valid()
      reads this
    {
      && |historicalData| <= HistoryCapacity
      && (maxCpu, avgCpu, maxMemory, avgMemory) == WindowAggregates(historicalData)
    }

    /** The state when the page mounts. */
    constructor ()
      ensures Valid()
      ensures systemData == InitialState && historicalData == [] && !isConnected
      ensures maxCpu == 0.0 && avgCpu == 0.0 && maxMemory == 0.0 && avgMemory == 0.0
    {
      systemData := InitialState;
      historicalData := [];
      isConnected := false;
      maxCpu, avgCpu, maxMemory, avgMemory := 0.0, 0.0, 0.0, 0.0;
    }

    /** `evtSource.onopen`. */
    method OnOpen()
      modifies this`isConnected
      ensures Valid() <==> old(Valid())
      ensures isConnected
      ensures historicalData == old(historicalData) && systemData == old(systemData)
      ensures maxCpu == old(maxCpu) && avgCpu == old(avgCpu)
      ensures maxMemory == old(maxMemory) && avgMemory == old(avgMemory)
    {
      isConnected := true;
    }

    /** `evtSource.onerror`. */
    method OnError()
      modifies this`isConnected
      ensures Valid() <==> old(Valid())
      ensures !isConnected
      ensures historicalData == old(historicalData) && systemData == old(systemData)
      ensures maxCpu == old(maxCpu) && avgCpu == old(avgCpu)
      ensures maxMemory == old(maxMemory) && avgMemory == old(avgMemory)
    {
      isConnected := false;
    }

    /** `handleSystemData`: record the message, put its point at the front of the
        window (dropping the oldest beyond ten) and recompute the aggregates over
        the new window. `timestamp` and `now` stand for the clock readings. */
    method HandleSystemData(data: SystemMonitorMessage, timestamp: string, now: int)
      modifies this
      ensures Valid()
      ensures systemData == data && isConnected == old(isConnected)
      ensures historicalData == PrependBounded(NewDataPoint(data, timestamp, now), old(historicalData))
      ensures historicalData[0].cpuUsage == data.totalCpuUsage
      ensures historicalData[0].memoryUsage == MemoryUsagePercent(data.memInfo)
    {
      var updated := PrependBounded(NewDataPoint(data, timestamp, now), historicalData);
      var cpuValues, memoryValues := CpuValues(updated), MemoryValues(updated);
      var aggregates := (Max(cpuValues), Average(cpuValues), Max(memoryValues), Average(memoryValues));
      assert aggregates == WindowAggregates(updated);
      systemData, historicalData := data, updated;
      maxCpu, avgCpu, maxMemory, avgMemory := aggregates.0, aggregates.1, aggregates.2, aggregates.3;
    }
  }
}
