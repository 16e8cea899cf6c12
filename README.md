# Zentrale system monitor: a verified model

This project models the two pieces of logic in the Zentrale dashboard that are
more than UI or server plumbing:

- **The server's system-information reader** (`SCADA/src/sysinfo.rs`). It parses
  the aggregate `cpu` line of `/proc/stat` into a total and a work tick count.
  It turns two such readings into a rounded CPU percentage, saturated to a `u8`.
  It also reads the host's identity: the hostname, the `PRETTY_NAME` of
  `/etc/os-release`, and the first three words of `/proc/version`. `System`
  keeps the previous reading and rolls it forward on every update.
- **The dashboard's system page** (`VIS/src/routes/system/route.tsx`). Each
  monitor message the server pushes becomes a history point. The newest point
  is put first, and the window keeps ten points. The peak and mean CPU and
  memory usage are recomputed over the new window. Small helpers give the
  memory card's figures and the Normal/Moderate/High badge and its colour.

Files:

- `text.dfy` (module `Text`): the Rust `str` operations the reader relies on.
  These are `lines`, `strip_prefix`, `split_whitespace`, `join`, `trim`,
  `trim_matches` and `parse::<usize>`. The file also proves a decimal rendering
  and the round trips the reader depends on.
- `sysinfo.dfy` (module `SysInfo`): `CpuTime`, `get_cpu_usage`,
  `calculate_cpu_usage`, `get_kernel_version`, `get_os_name` (a loop with an
  early return, so a method), and the class `System` with its constructor and
  `update_cpu_stats`.
- `system_route.dfy` (module `SystemRoute`): the message and history types, the
  memory helpers, the window and its aggregates, the status helpers, and the
  class `SystemMonitor`. Its fields are the page's React state.

Semantics chosen where the source leaves room:

- **Rust arithmetic** is modelled as a debug build. An overflowing `sum()` or an
  underflowing `usize` subtraction panics. `usize` is 64 bits wide.
- **Panics and errors.** `get_cpu_usage` returns an `Outcome`. It is `Err` for
  the two `anyhow` errors raised after the file read (the read itself, with its
  own error, is left out) and `Panic` for the three ways the function panics:
  an `unwrap` on a bad field, an overflowing sum, or an index past the fifth
  field. `update_cpu_stats` reports its panic through a `panicked` flag and
  leaves the state unchanged.
- **`calculate_cpu_usage`** is modelled with exact rationals:
  - the exact quotient is rounded half up, which is what `f64::round` does for
    a non-negative value (the `f64` quotient itself can differ near a half; see
    "Left out");
  - the result then goes through the saturating `as u8` cast, so NaN (0/0)
    becomes 0, +∞ becomes 255, and values above 255 become 255.
- **Percentages on the page** are exact reals in place of JavaScript doubles.

## Model

| member | source | states |
|---|---|---|
| Text.StripPrefix | SCADA/src/sysinfo.rs:69-71 | succeeds exactly when the line starts with the prefix, and prefix + remainder is the line |
| Text.Lines | SCADA/src/sysinfo.rs:65-67 | no line contains a line feed; there are no lines only for the empty text |
| Text.LinesCons | SCADA/src/sysinfo.rs:65-67 | a line without "\n" and without a final "\r", followed by "\n", is the first of the lines and the rest are the lines of what follows |
| Text.SplitWhitespace | SCADA/src/sysinfo.rs:54-56 | every piece is non-empty and free of Unicode whitespace |
| Text.SplitWhitespaceSkipsLeading | SCADA/src/sysinfo.rs:70-72 | leading whitespace (the blanks after "cpu") does not change the pieces |
| Text.SplitWhitespaceStep | SCADA/src/sysinfo.rs:54-56 | a token followed by whitespace or by the end is the first piece, and the rest are the pieces of what follows; with SplitWhitespaceSkipsLeading this fixes every result |
| Text.SplitWhitespaceOfJoin | SCADA/src/sysinfo.rs:54-59 | splitting a single-space join of whitespace-free pieces gives back the pieces |
| Text.Join | SCADA/src/sysinfo.rs:58 | no contract: the pieces concatenated with the separator between neighbours; SplitWhitespaceOfJoin and JoinOfTokensIsOneLine state its properties |
| Text.JoinOfTokensIsOneLine | SCADA/src/sysinfo.rs:65-67 | a single-space join of whitespace-free pieces holds no line feed and does not end in a carriage return, so such a line written first in /proc/stat is the line `lines().nth(0)` yields |
| Text.TrimBy | SCADA/src/sysinfo.rs:47 | the result is a contiguous slice of the input, every character outside it belongs to the trimmed class, and the result neither starts nor ends with one, so exactly the leading and trailing run is removed |
| Text.Trim | SCADA/src/sysinfo.rs:30 | the result is a contiguous slice of the input with only whitespace outside it, and it neither starts nor ends with whitespace |
| Text.TrimMatches | SCADA/src/sysinfo.rs:47 | the result is a contiguous slice of the input with only the quote character outside it, and it neither starts nor ends with that character |
| Text.ParseUsize | SCADA/src/sysinfo.rs:73 | succeeds exactly when the text is an optional '+' followed by at least one decimal digit with a value of at most usize::MAX, and then yields that value |
| Text.Decimal | SCADA/src/sysinfo.rs:73 | the kernel's decimal rendering of a counter, which the parse at this line inverts: non-empty, all digits, and denoting the number |
| Text.ParseUsizeOfDecimal | SCADA/src/sysinfo.rs:73 | parsing the decimal rendering of any n ≤ usize::MAX gives n |
| SysInfo.ParseFields | SCADA/src/sysinfo.rs:72-74 | all fields parse exactly when every token is a usize; then the values are the tokens' values, in order |
| SysInfo.SumOf | SCADA/src/sysinfo.rs:76 | no contract: the fields added from the first to the last; FieldWithinSum, TwoFieldsWithinSum and PrefixSumWithinSum state its properties |
| SysInfo.CpuFields | SCADA/src/sysinfo.rs:69-74 | fields are read only from a line that starts with "cpu", and every field read is at most usize::MAX |
| SysInfo.FieldWithinSum | SCADA/src/sysinfo.rs:76 | each field is at most the sum of all fields |
| SysInfo.TwoFieldsWithinSum | SCADA/src/sysinfo.rs:77 | idle plus iowait never exceeds the total, so the work-time subtraction cannot underflow |
| SysInfo.PrefixSumWithinSum | SCADA/src/sysinfo.rs:76 | every running total of `sum()` is at most the final one, so the checked sum overflows exactly when the total exceeds usize::MAX |
| SysInfo.GetCpuUsage | SCADA/src/sysinfo.rs:63-82 | the results are: an error exactly when the line is missing or does not start with "cpu"; a panic exactly when a field is not a usize; a panic when the sum overflows or there are fewer than five fields; otherwise total = sum of the fields, and work + idle + iowait = total |
| SysInfo.DecimalFields | SCADA/src/sysinfo.rs:69-74 | one whitespace-free token per counter |
| SysInfo.ParseDecimalFields | SCADA/src/sysinfo.rs:72-74 | parsing the decimal tokens of the counters gives back the counters |
| SysInfo.CpuFieldsOfKernelLine | SCADA/src/sysinfo.rs:69-74 | the fields read from a "cpu  n0 n1 …" line are the counters written |
| SysInfo.KernelCpuLineIsFirstLine | SCADA/src/sysinfo.rs:65-67 | such a line, followed by a newline and anything else, is line 0 |
| SysInfo.GetCpuUsageOfFirstLine | SCADA/src/sysinfo.rs:63-82 | a first line carrying "cpu" and at least five fields with a representable sum reads successfully, as total and total − idle − iowait |
| SysInfo.GetCpuUsageOfKernelLine | SCADA/src/sysinfo.rs:63-82 | reading /proc/stat whose first line the kernel wrote from counters f yields total = Σf and work = Σf − f[3] − f[4] |
| SysInfo.RoundedRatio | SCADA/src/sysinfo.rs:87 | the result r is the nearest integer to n/d with halves up: (2r−1)d ≤ 2n < (2r+1)d |
| SysInfo.RoundedRatioMonotone | SCADA/src/sysinfo.rs:87 | rounding preserves order |
| SysInfo.RoundedPercentBounds | SCADA/src/sysinfo.rs:87 | the percentage is at most 100 when work ≤ total, and reaches 255 only when the exact ratio is at least 254.5 % |
| SysInfo.CalculateCpuUsage | SCADA/src/sysinfo.rs:84-90 | over an interval with no elapsed ticks: 0 if no work was done, else 255; otherwise the rounded percentage of work over elapsed ticks when below 255, and 255 only when that percentage is at least 254.5; never above 100 when work ≤ elapsed |
| SysInfo.CpuUsageMonotoneInWork | SCADA/src/sysinfo.rs:84-90 | more work over the same elapsed ticks never reads lower |
| SysInfo.CpuUsageExtremes | SCADA/src/sysinfo.rs:84-90 | an idle interval reads 0 and a fully busy one reads 100 |
| SysInfo.GetKernelVersion | SCADA/src/sysinfo.rs:52-60 | the words of the result are the first three words of /proc/version (all of them if fewer), and the result is those words joined by single spaces |
| SysInfo.GetOsName | SCADA/src/sysinfo.rs:42-51 | the result is the value of the first line starting with PRETTY_NAME=, stripped of surrounding double quotes, or "Unknown OS" when no line does |
| SysInfo.System.constructor | SCADA/src/sysinfo.rs:27-41 | the host name is the trimmed /etc/hostname; the OS name is as get_os_name; the kernel version is as get_kernel_version; usage is 0; the first /proc/stat reading is stored |
| SysInfo.System.UpdateCpuStats | SCADA/src/sysinfo.rs:91-96 | panics exactly when the new reading fails or a counter went backwards, and then nothing changes; otherwise the usage is computed from the stored and new readings and the new reading is stored; the identity fields never change |
| SystemRoute.MemoryUsagePercent | VIS/src/routes/system/route.tsx:98-103 | with a positive total, the percentage times the total is 100 × (total − free); otherwise it is 0 |
| SystemRoute.GetMemoryUsed | VIS/src/routes/system/route.tsx:79-82 | used plus free is the total |
| SystemRoute.GetMemoryUsage | VIS/src/routes/system/route.tsx:73-77 | 0 for a zero total; otherwise the percentage times the total is 100 × the used memory |
| SystemRoute.MemoryViewsAgree | VIS/src/routes/system/route.tsx:73-77 | the memory card and the history agree on every message whose total is not negative |
| SystemRoute.MemoryUsagePercentInRange | VIS/src/routes/system/route.tsx:98-103 | with 0 ≤ free ≤ total, the recorded percentage is between 0 and 100 |
| SystemRoute.NewDataPoint | VIS/src/routes/system/route.tsx:105-111 | no contract: the point holding the clock reading, the message's CPU usage and its memory percentage; HandleSystemData's contract states its fields at the head of the window |
| SystemRoute.PrependBounded | VIS/src/routes/system/route.tsx:114 | the new window has length min(old + 1, 10); the new point is first, followed by the first min(old, 9) points of the previous window in their order, so only the oldest drop off |
| SystemRoute.IngestAllKeepsNewest | VIS/src/routes/system/route.tsx:113-114 | after any sequence of points, position i holds the i-th newest point, then the earlier history, up to ten positions |
| SystemRoute.HistoryHoldsLastTen | VIS/src/routes/system/route.tsx:113-114 | from an empty history the window is exactly the last min(n, 10) points, newest first |
| SystemRoute.CpuValues | VIS/src/routes/system/route.tsx:117 | the CPU usage of every point, in window order |
| SystemRoute.MemoryValues | VIS/src/routes/system/route.tsx:122 | the memory usage of every point, in window order |
| SystemRoute.Max | VIS/src/routes/system/route.tsx:118 | no value exceeds the result |
| SystemRoute.MaxIsAttained | VIS/src/routes/system/route.tsx:118 | the result is one of the values, so it is their maximum |
| SystemRoute.Sum | VIS/src/routes/system/route.tsx:119 | no contract: the values added from the left, starting at 0; SumAtMost and SumAtLeast bound it |
| SystemRoute.Average | VIS/src/routes/system/route.tsx:124-126 | the mean times the number of values is their sum |
| SystemRoute.AverageAtMost | VIS/src/routes/system/route.tsx:119 | the mean is at most any upper bound of the values |
| SystemRoute.AverageAtLeast | VIS/src/routes/system/route.tsx:125 | the mean is at least any lower bound of the values |
| SystemRoute.AverageAtMostMax | VIS/src/routes/system/route.tsx:117-126 | the mean never exceeds the peak |
| SystemRoute.AggregatesArePercentages | VIS/src/routes/system/route.tsx:116-126 | when every recorded usage is between 0 and 100, 0 ≤ mean ≤ peak ≤ 100 for CPU and for memory |
| SystemRoute.WindowAggregates | VIS/src/routes/system/route.tsx:116-126 | all four aggregates are zero for an empty window; otherwise each mean is at most the matching peak |
| SystemRoute.GetStatusColor | VIS/src/routes/system/route.tsx:147-151 | green exactly below 50, yellow exactly from 50 below 80, red exactly from 80 |
| SystemRoute.GetStatusBadge | VIS/src/routes/system/route.tsx:153-157 | Normal/secondary exactly below 50, Moderate/default exactly from 50 below 80, High/destructive exactly from 80 |
| SystemRoute.StatusBadgeMatchesColor | VIS/src/routes/system/route.tsx:147-157 | the badge and the colour agree for every usage |
| SystemRoute.SystemMonitor.constructor | VIS/src/routes/system/route.tsx:51-62 | the initial message, an empty history, disconnected, all aggregates 0, and the window invariant holds |
| SystemRoute.SystemMonitor.OnOpen | VIS/src/routes/system/route.tsx:87-89 | connected afterwards; history, message and aggregates unchanged, so the aggregates still match the window exactly when they did before |
| SystemRoute.SystemMonitor.OnError | VIS/src/routes/system/route.tsx:91-93 | disconnected afterwards; history, message and aggregates unchanged, so the aggregates still match the window exactly when they did before |
| SystemRoute.SystemMonitor.HandleSystemData | VIS/src/routes/system/route.tsx:95-130 | the message is stored; the window becomes the new point (the message's CPU usage and memory percentage) followed by the previous window, cut to ten; the peak and mean CPU and memory usage are those of the new window; the connection flag is untouched |

## Left out

- File reads (`fs::read_to_string`) are not modelled. The texts of /etc/hostname, /etc/os-release, /proc/version and /proc/stat are parameters, and a failed read is not modelled.
- The `dbg!` print in `calculate_cpu_usage` is left out. So is the message of `expect`, which only labels a panic.
- SysInfo.CalculateCpuUsage: it uses exact rational arithmetic, not `f64`. The source divides and multiplies in `f64` before `round()`, so a quotient that is exactly a half, or within an ulp of one, can round differently at any size. For example, 57 work ticks out of 200 give 28.499999999999996 in `f64`, which rounds to 28, while the model gives 29. Counter deltas above 2^53 also lose precision in `f64`.
- SysInfo.System.constructor: `System::new` panics when `/proc/stat` cannot be read. The model makes a successful first reading a precondition rather than modelling the panic.
- SysInfo.System.UpdateCpuStats: a panic is modelled as a flag with the state unchanged. The process-level consequences of a panic are not modelled: an unwound thread, or a poisoned mutex in the caller.
- Release-build wrap-around of `usize` arithmetic is not modelled; debug-build checked arithmetic is.
- The server's HTTP, SSE and WebSocket plumbing, its watch channels, and its mutexes are not part of this model (`main.rs`, `api.rs`, `sse.rs`, `ws.rs`). Neither are the Tailscale data types (`tailscale.rs`).
- The page's JSX, charts, `formatMemoryFromKB` and `toFixed` formatting are left out. They are floating-point display code.
- `EventSource` and `JSON.parse` are foreign. A decoded `SystemMonitorMessage` is the input.
- A message without `mem_info` would throw in the page; the model's messages always carry it.
- `Date.now()` and `toLocaleTimeString()` are parameters of `HandleSystemData`.
- Percentages are exact reals, not JavaScript doubles, so NaN and rounding in the sums are not modelled.
- React batches the state setters of `handleSystemData` into one render. The model applies them as one atomic update.
- StrictMode runs the updater function twice in development. That is not modelled.
- `getMemoryUsage` and `getMemoryUsed` read the current `systemData`. They are modelled as functions of its `mem_info`.
- There is no reconnection logic or connection-state machine in the code. The browser's own `EventSource` retry is external, and the page keeps a single boolean flag, modelled as such.
- The history window keeps ten points with the newest first, as the code does. An inline comment and some descriptions of the page say twenty points or oldest-first; the model follows the code.
