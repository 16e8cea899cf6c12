/** The server's system-information reader (`sysinfo.rs`): CPU time accounting from
    /proc/stat, the CPU usage percentage between two readings, and the host's
    identity strings. Every file the reader opens is passed in as its text. */
module SysInfo {
  import opened Text

  type U8 = x: int | 0 <= x < 0x100
  type U16 = x: int | 0 <= x < 0x1_0000

  /** `Percantage(u8)`: a CPU usage in whole percent. */
  type Percentage = U8

  /** Cumulative CPU time of one /proc/stat line, in clock ticks: everything, and
      everything except idle and iowait. */
  datatype CpuTime = CpuTime(totalTime: nat, workTime: nat)

  /** The two errors `get_cpu_usage` reports through its `Result`. */
  datatype CpuStatError =
    | MissingLine   // "not enough lines in /proc/stat"
    | NotCpuLine    // "line did not start with cpu"

  /** The ways `get_cpu_usage` panics instead of returning. */
  datatype PanicReason =
    | BadField       // a field is not a usize (`unwrap` on the parse)
    | SumOverflow    // the sum of the fields exceeds usize::MAX
    | TooFewFields   // `cpu_time[3]` or `cpu_time[4]` is out of bounds

  datatype Outcome<+T> = Ok(value: T) | Err(error: CpuStatError) | Panic(reason: PanicReason)

  /** The sum of the fields, added from the first to the last as `Iterator::sum` does. */
  function SumOf(s: seq<nat>): nat
  {
    if s == [] then 0 else SumOf(s[..|s| - 1]) + s[|s| - 1]
  }

  lemma {:induction false} FieldWithinSum(s: seq<nat>, i: nat)
    requires i < |s|
    ensures s[i] <= SumOf(s)
    decreases |s|
  {
    if i < |s| - 1 {
      FieldWithinSum(s[..|s| - 1], i);
    }
  }

  /** Idle and iowait together never exceed the total, so `work_time` cannot underflow. */
  lemma {:induction false} TwoFieldsWithinSum(s: seq<nat>, i: nat, j: nat)
    requires i < j < |s|
    ensures s[i] + s[j] <= SumOf(s)
    decreases |s|
  {
    var init := s[..|s| - 1];
    if j == |s| - 1 {
      FieldWithinSum(init, i);
    } else {
      TwoFieldsWithinSum(init, i, j);
    }
  }

  /** Every running total is at most the final one, so the checked additions of
      `sum()` overflow exactly when the final total exceeds usize::MAX. */
  lemma {:induction false} PrefixSumWithinSum(s: seq<nat>, k: nat)
    requires k <= |s|
    ensures SumOf(s[..k]) <= SumOf(s)
    decreases |s|
  {
    if k < |s| {
      var init := s[..|s| - 1];
      assert s[..k] == init[..k];
      PrefixSumWithinSum(init, k);
    } else {
      assert s[..k] == s;
    }
  }

  /** `.map(|s| s.parse::<usize>().unwrap()).collect()`: every token parsed, or
      `None` where the first token that is not a usize makes `unwrap` panic. */
  function ParseFields(tokens: seq<string>): (r: Option<seq<nat>>)
    ensures r.Some? <==> forall i :: 0 <= i < |tokens| ==> ParseUsize(tokens[i]).Some?
    ensures r.Some? ==> |r.value| == |tokens|
    ensures r.Some? ==> forall i :: 0 <= i < |tokens| ==> r.value[i] == ParseUsize(tokens[i]).value
  {
    if tokens == [] then Some([])
    else match ParseUsize(tokens[0])
      case None => None
      case Some(v) =>
        match ParseFields(tokens[1..])
        case None => None
        case Some(vs) => Some([v] + vs)
  }

  /** The numbers after the "cpu" label of a /proc/stat line, when the line has
      that label and every field parses. */
  function CpuFields(line: string): (r: Option<seq<nat>>)
    ensures r.Some? ==> StartsWith(line, "cpu")
    ensures r.Some? ==> forall i :: 0 <= i < |r.value| ==> r.value[i] <= UsizeMax
  {
    match StripPrefix(line, "cpu")
    case None => None
    case Some(rest) => ParseFields(SplitWhitespace(rest))
  }

  /** `get_cpu_usage(file_line)`, with the text of /proc/stat passed in. */
  function GetCpuUsage(procStat: string, fileLine: U16): (r: Outcome<CpuTime>)
    ensures r == Err(MissingLine) <==> fileLine >= |Lines(procStat)|
    ensures r == Err(NotCpuLine) <==>
      fileLine < |Lines(procStat)| && !StartsWith(Lines(procStat)[fileLine], "cpu")
    ensures r == Panic(BadField) <==>
      fileLine < |Lines(procStat)| && StartsWith(Lines(procStat)[fileLine], "cpu")
      && CpuFields(Lines(procStat)[fileLine]).None?
    ensures r.Ok? || r == Panic(SumOverflow) || r == Panic(TooFewFields) ==>
      fileLine < |Lines(procStat)| && CpuFields(Lines(procStat)[fileLine]).Some?
    ensures r == Panic(SumOverflow) ==>
      SumOf(CpuFields(Lines(procStat)[fileLine]).value) > UsizeMax
    ensures r == Panic(TooFewFields) ==>
      var fields := CpuFields(Lines(procStat)[fileLine]).value;
      SumOf(fields) <= UsizeMax && |fields| < 5
    ensures r.Ok? ==>
      var fields := CpuFields(Lines(procStat)[fileLine]).value;
      && |fields| >= 5
      && r.value.totalTime == SumOf(fields) <= UsizeMax
      && r.value.workTime + fields[3] + fields[4] == r.value.totalTime
  {
    var lines := Lines(procStat);
    if fileLine >= |lines| then Err(MissingLine)
    else match StripPrefix(lines[fileLine], "cpu")
      case None => Err(NotCpuLine)
      case Some(rest) =>
        match ParseFields(SplitWhitespace(rest))
        case None => Panic(BadField)
        case Some(fields) =>
          if SumOf(fields) > UsizeMax then Panic(SumOverflow)
          else if |fields| < 5 then Panic(TooFewFields)
          else
            TwoFieldsWithinSum(fields, 3, 4);
            Ok(CpuTime(SumOf(fields), SumOf(fields) - fields[3] - fields[4]))
  }

  /** The counters in decimal, one string each. */
  function DecimalFields(fields: seq<nat>): (r: seq<string>)
    ensures |r| == |fields|
    ensures forall i :: 0 <= i < |r| ==> IsToken(r[i])
  {
    if fields == [] then []
    else
      DecimalIsToken(fields[0]);
      [Decimal(fields[0])] + DecimalFields(fields[1..])
  }

  /** The aggregate line as the kernel writes it: "cpu", two spaces, then the
      counters in decimal separated by single spaces. */
  function KernelCpuLine(fields: seq<nat>): string
  {
    "cpu  " + Join(DecimalFields(fields), " ")
  }

  lemma {:induction false} ParseDecimalFields(fields: seq<nat>)
    requires forall i :: 0 <= i < |fields| ==> fields[i] <= UsizeMax
    ensures ParseFields(DecimalFields(fields)) == Some(fields)
    decreases |fields|
  {
    if fields != [] {
      var tokens := DecimalFields(fields);
      assert tokens[0] == Decimal(fields[0]);
      ParseUsizeOfDecimal(fields[0]);
      assert tokens[1..] == DecimalFields(fields[1..]);
      ParseDecimalFields(fields[1..]);
      assert ParseFields(tokens[1..]) == Some(fields[1..]);
      assert [fields[0]] + fields[1..] == fields;
    }
  }

  /** The fields read back from a line the kernel wrote are the counters it wrote. */
  lemma CpuFieldsOfKernelLine(fields: seq<nat>)
    requires forall i :: 0 <= i < |fields| ==> fields[i] <= UsizeMax
    ensures CpuFields(KernelCpuLine(fields)) == Some(fields)
  {
    var joined := Join(DecimalFields(fields), " ");
    assert KernelCpuLine(fields) == "cpu" + ("  " + joined);
    assert StripPrefix(KernelCpuLine(fields), "cpu") == Some("  " + joined);
    SplitWhitespaceSkipsLeading("  ", joined);
    SplitWhitespaceOfJoin(DecimalFields(fields));
    ParseDecimalFields(fields);
  }

  /** A line the kernel wrote is the first line of a file that starts with it. */
  lemma KernelCpuLineIsFirstLine(fields: seq<nat>, rest: string)
    requires fields != []
    ensures Lines(KernelCpuLine(fields) + "\n" + rest)[0] == KernelCpuLine(fields)
  {
    var joined := Join(DecimalFields(fields), " ");
    var line := KernelCpuLine(fields);
    JoinOfTokensIsOneLine(DecimalFields(fields));
    assert '\n' !in "cpu  ";
    assert line[|line| - 1] == joined[|joined| - 1];
    LinesCons(line, rest);
  }

  /** Reading a text whose first line is a cpu line with at least five counters
      and a representable sum succeeds. */
  lemma GetCpuUsageOfFirstLine(procStat: string, fields: seq<nat>)
    requires Lines(procStat) != [] && CpuFields(Lines(procStat)[0]) == Some(fields)
    requires |fields| >= 5 && SumOf(fields) <= UsizeMax
    ensures var r := GetCpuUsage(procStat, 0);
      && r.Ok?
      && r.value.totalTime == SumOf(fields)
      && r.value.workTime + fields[3] + fields[4] == SumOf(fields)
  {
    assert StartsWith(Lines(procStat)[0], "cpu");
  }

  /** Reading back a line the kernel wrote yields the sum of its counters as the
      total, and that sum less idle (field 3) and iowait (field 4) as the work time. */
  lemma GetCpuUsageOfKernelLine(fields: seq<nat>, rest: string)
    requires |fields| >= 5 && SumOf(fields) <= UsizeMax
    ensures var r := GetCpuUsage(KernelCpuLine(fields) + "\n" + rest, 0);
      && r.Ok?
      && r.value.totalTime == SumOf(fields)
      && r.value.workTime + fields[3] + fields[4] == SumOf(fields)
  {
    forall i | 0 <= i < |fields| ensures fields[i] <= UsizeMax {
      FieldWithinSum(fields, i);
    }
    CpuFieldsOfKernelLine(fields);
    KernelCpuLineIsFirstLine(fields, rest);
    GetCpuUsageOfFirstLine(KernelCpuLine(fields) + "\n" + rest, fields);
  }

  /** The nearest whole number to n / d, halves rounded up (what `f64::round`
      does to a non-negative quotient). */
  function RoundedRatio(n: nat, d: nat): (r: nat)
    requires d > 0
    ensures (2 * r - 1) * d <= 2 * n < (2 * r + 1) * d
  {
    var r := (2 * n + d) / (2 * d);
    var m := (2 * n + d) % (2 * d);
    assert 2 * n + d == r * (2 * d) + m;
    assert (2 * r - 1) * d == r * (2 * d) - d;
    assert (2 * r + 1) * d == r * (2 * d) + d;
    r
  }

  lemma CancelPositive(a: int, b: int, d: int)
    requires d > 0 && a * d < b * d
    ensures a < b
  {
  }

  lemma {:induction false} RoundedRatioMonotone(n1: nat, n2: nat, d: nat)
    requires d > 0 && n1 <= n2
    ensures RoundedRatio(n1, d) <= RoundedRatio(n2, d)
  {
    var r1, r2 := RoundedRatio(n1, d), RoundedRatio(n2, d);
    CancelPositive(2 * (r1 as int) - 1, 2 * (r2 as int) + 1, d);
  }

  lemma MultiplyMonotone(a: int, b: int, d: nat)
    requires a <= b
    ensures a * d <= b * d
  {
  }

  /** The rounded percentage of `work` out of `total` ticks is at most 100 when
      `work <= total`, and reaches 255 only when the exact ratio is at least 254.5 %. */
  lemma RoundedPercentBounds(work: nat, total: nat)
    requires total > 0
    ensures work <= total ==> RoundedRatio(100 * work, total) <= 100
    ensures RoundedRatio(100 * work, total) >= 255 ==> 509 * total <= 200 * work
  {
    var q: int := RoundedRatio(100 * work, total);
    if work <= total {
      assert (2 * q - 1) * total <= 200 * total;
      CancelPositive(2 * q - 1, 201, total);
    }
    if q >= 255 {
      MultiplyMonotone(509, 2 * q - 1, total);
    }
  }

  /** `calculate_cpu_usage`: the share of the elapsed ticks that were work, in
      rounded whole percent, through `as u8` (NaN becomes 0, values above 255
      become 255). The subtractions are on usize and panic when a counter went
      backwards, which is why the counters must not decrease. */
  function CalculateCpuUsage(prev: CpuTime, next: CpuTime): (r: Percentage)
    requires prev.workTime <= next.workTime && prev.totalTime <= next.totalTime
    ensures var work, total := next.workTime - prev.workTime, next.totalTime - prev.totalTime;
      && (total == 0 ==> r == if work == 0 then 0 else 255)
      && (0 < total && r < 255 ==> (2 * r - 1) * total <= 200 * work < (2 * r + 1) * total)
      && (0 < total && r == 255 ==> 509 * total <= 200 * work)
      && (0 < total && work <= total ==> r <= 100)
  {
    var work := next.workTime - prev.workTime;
    var total := next.totalTime - prev.totalTime;
    if total == 0 then
      if work == 0 then 0 else 255
    else
      RoundedPercentBounds(work, total);
      var q := RoundedRatio(100 * work, total);
      if q > 255 then 255 else q
  }

  /** More work over the same elapsed ticks never reports a lower usage. */
  lemma CpuUsageMonotoneInWork(prev: CpuTime, next1: CpuTime, next2: CpuTime)
    requires prev.workTime <= next1.workTime <= next2.workTime
    requires prev.totalTime <= next1.totalTime == next2.totalTime
    ensures CalculateCpuUsage(prev, next1) <= CalculateCpuUsage(prev, next2)
  {
    var total := next1.totalTime - prev.totalTime;
    if total > 0 {
      RoundedRatioMonotone(100 * (next1.workTime - prev.workTime),
                           100 * (next2.workTime - prev.workTime), total);
    }
  }

  /** An idle interval reads 0 % and a fully busy one 100 %. */
  lemma CpuUsageExtremes(prev: CpuTime, next: CpuTime)
    requires prev.workTime <= next.workTime && prev.totalTime < next.totalTime
    ensures next.workTime == prev.workTime ==> CalculateCpuUsage(prev, next) == 0
    ensures next.workTime - prev.workTime == next.totalTime - prev.totalTime ==>
      CalculateCpuUsage(prev, next) == 100
  {
    var r := CalculateCpuUsage(prev, next);
    var total := next.totalTime - prev.totalTime;
    var q: int := r;
    if next.workTime == prev.workTime {
      CancelPositive(2 * q - 1, 1, total);
    }
    if next.workTime - prev.workTime == total {
      CancelPositive(2 * q - 1, 201, total);
      CancelPositive(199, 2 * q + 1, total);
    }
  }

  /** `get_kernel_version`: the first three whitespace-separated words of
      /proc/version (fewer if there are fewer), joined by single spaces. */
  function GetKernelVersion(procVersion: string): (r: string)
    ensures var words := SplitWhitespace(procVersion);
      SplitWhitespace(r) == if |words| <= 3 then words else words[..3]
    ensures r == Join(SplitWhitespace(r), " ")
  {
    var words := SplitWhitespace(procVersion);
    var kept := if |words| <= 3 then words else words[..3];
    SplitWhitespaceOfJoin(kept);
    Join(kept, " ")
  }

  const PrettyNameKey: string := "PRETTY_NAME="
  const UnknownOs: string := "Unknown OS"

  /** What `get_os_name` promises about /etc/os-release: the value of the first
      line that starts with PRETTY_NAME=, stripped of surrounding double quotes,
      or "Unknown OS" when no line does. */
  ghost predicate IsOsName(osRelease: string, name: string)
  {
    var lines := Lines(osRelease);
    || (exists i :: 0 <= i < |lines| && StartsWith(lines[i], PrettyNameKey)
          && (forall j :: 0 <= j < i ==> !StartsWith(lines[j], PrettyNameKey))
          && name == TrimMatches(lines[i][|PrettyNameKey|..], '"'))
    || ((forall i :: 0 <= i < |lines| ==> !StartsWith(lines[i], PrettyNameKey)) && name == UnknownOs)
  }

  /** `get_os_name`, with the text of /etc/os-release passed in. */
  method GetOsName(osRelease: string) returns (name: string)
    ensures IsOsName(osRelease, name)
  {
    var lines := Lines(osRelease);
    var i := 0;
    while i < |lines|
      invariant 0 <= i <= |lines|
      invariant forall j :: 0 <= j < i ==> !StartsWith(lines[j], PrettyNameKey)
    {
      match StripPrefix(lines[i], PrettyNameKey) {
        case Some(rest) =>
          return TrimMatches(rest, '"');
        case None =>
      }
      i := i + 1;
    }
    return UnknownOs;
  }

  /** `System`: the host's identity and the CPU usage over the last sampling
      interval, with the /proc/stat reading that interval started from. */
  class System {
    var hostName: string
    var osName: string
    var kernelVersion: string
    var totalCpuUsage: Percentage
    var cpuTime: CpuTime

    /** `System::new`, with the texts of /etc/hostname, /etc/os-release,
        /proc/version and /proc/stat passed in. */
    constructor (hostnameFile: string, osRelease: string, procVersion: string, procStat: string)
      requires GetCpuUsage(procStat, 0).Ok?
      ensures hostName == Trim(hostnameFile)
      ensures IsOsName(osRelease, osName)
      ensures kernelVersion == GetKernelVersion(procVersion)
      ensures totalCpuUsage == 0
      ensures cpuTime == GetCpuUsage(procStat, 0).value
    {
      var os := GetOsName(osRelease);
      hostName := Trim(hostnameFile);
      osName := os;
      kernelVersion := GetKernelVersion(procVersion);
      totalCpuUsage := 0;
      cpuTime := GetCpuUsage(procStat, 0).value;
    }

    /** `update_cpu_stats`, with the current text of /proc/stat passed in. It panics
        (`panicked`, nothing changed) when that text cannot be read as a CPU line or
        a counter went backwards; otherwise it stores the usage since the previous
        reading and makes the new reading the previous one. */
    method UpdateCpuStats(procStat: string) returns (panicked: bool)
      modifies this
      ensures var next := GetCpuUsage(procStat, 0);
        panicked <==> !next.Ok? || next.value.workTime < old(cpuTime.workTime)
                      || next.value.totalTime < old(cpuTime.totalTime)
      ensures panicked ==> totalCpuUsage == old(totalCpuUsage) && cpuTime == old(cpuTime)
      ensures !panicked ==>
        && cpuTime == GetCpuUsage(procStat, 0).value
        && totalCpuUsage == CalculateCpuUsage(old(cpuTime), cpuTime)
      ensures hostName == old(hostName) && osName == old(osName) && kernelVersion == old(kernelVersion)
    {
      var next := GetCpuUsage(procStat, 0);
      if !next.Ok? || next.value.workTime < cpuTime.workTime || next.value.totalTime < cpuTime.totalTime {
        return true;
      }
      totalCpuUsage := CalculateCpuUsage(cpuTime, next.value);
      cpuTime := next.value;
      return false;
    }
  }
}
