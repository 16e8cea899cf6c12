/** The Rust `str` operations that the system-information reader is built from:
    `lines`, `strip_prefix`, `split_whitespace`, `join`, `trim`, `trim_matches`
    and `parse::<usize>`, with the properties the reader relies on. */
module Text {

  datatype Option<+T> = None | Some(value: T)

  /** `usize::MAX` on a 64-bit target. */
  const UsizeMax: nat := 0xFFFF_FFFF_FFFF_FFFF

  /** Rust's `char::is_whitespace`: the Unicode White_Space property. */
  predicate IsWhitespace(c: char)
  {
    c == ' ' || ('\t' <= c <= '\r') || c == '\U{0085}' || c == '\U{00A0}' || c == '\U{1680}'
    || ('\U{2000}' <= c <= '\U{200A}') || c == '\U{2028}' || c == '\U{2029}' || c == '\U{202F}'
    || c == '\U{205F}' || c == '\U{3000}'
  }

  /** The kinds of character that the trimming and splitting functions strip. */
  datatype CharClass = Whitespace | NonWhitespace | Exactly(c: char)

  predicate InClass(c: char, cls: CharClass)
  {
    match cls
    case Whitespace => IsWhitespace(c)
    case NonWhitespace => !IsWhitespace(c)
    case Exactly(x) => c == x
  }

  /** A piece that `split_whitespace` can yield: non-empty, no whitespace in it. */
  predicate IsToken(t: string)
  {
    t != [] && forall i :: 0 <= i < |t| ==> !IsWhitespace(t[i])
  }

  predicate StartsWith(s: string, prefix: string)
  {
    |prefix| <= |s| && s[..|prefix|] == prefix
  }

  /** `str::strip_prefix`. */
  function StripPrefix(s: string, prefix: string): (r: Option<string>)
    ensures r.Some? <==> StartsWith(s, prefix)
    ensures r.Some? ==> prefix + r.value == s
  {
    if StartsWith(s, prefix) then Some(s[|prefix|..]) else None
  }

  /** The number of leading characters of `s` that belong to `cls`. */
  function LeadingCount(s: string, cls: CharClass): (n: nat)
    ensures n <= |s|
    ensures forall i :: 0 <= i < n ==> InClass(s[i], cls)
    ensures n < |s| ==> !InClass(s[n], cls)
  {
    if s != [] && InClass(s[0], cls) then 1 + LeadingCount(s[1..], cls) else 0
  }

  /** The number of trailing characters of `s` that belong to `cls`. */
  function TrailingCount(s: string, cls: CharClass): (n: nat)
    ensures n <= |s|
    ensures forall i :: |s| - n <= i < |s| ==> InClass(s[i], cls)
    ensures n < |s| ==> !InClass(s[|s| - 1 - n], cls)
  {
    if s != [] && InClass(s[|s| - 1], cls) then 1 + TrailingCount(s[..|s| - 1], cls) else 0
  }

  /** Removes every leading character that belongs to `cls`. */
  function TrimStartBy(s: string, cls: CharClass): (r: string)
    ensures |r| <= |s| && r == s[|s| - |r|..]
    ensures forall i :: 0 <= i < |s| - |r| ==> InClass(s[i], cls)
    ensures r == [] || !InClass(r[0], cls)
  {
    s[LeadingCount(s, cls)..]
  }

  /** Removes every trailing character that belongs to `cls`. */
  function TrimEndBy(s: string, cls: CharClass): (r: string)
    ensures |r| <= |s| && r == s[..|r|]
    ensures forall i :: |r| <= i < |s| ==> InClass(s[i], cls)
    ensures r == [] || !InClass(r[|r| - 1], cls)
  {
    s[..|s| - TrailingCount(s, cls)]
  }

  /** `r` is the slice of `s` that starts at `a`, and every character of `s`
      outside that slice belongs to `cls`. */
  predicate SliceWithClassOutside(s: string, r: string, cls: CharClass, a: int)
  {
    && 0 <= a && a + |r| <= |s| && r == s[a..a + |r|]
    && (forall i :: 0 <= i < a ==> InClass(s[i], cls))
    && (forall i :: a + |r| <= i < |s| ==> InClass(s[i], cls))
  }

  /** Trimming the end of what is left after trimming the start leaves a slice
      with only characters of the class around it. */
  lemma TrimmedIsSlice(s: string, cls: CharClass)
    ensures SliceWithClassOutside(s, TrimEndBy(TrimStartBy(s, cls), cls), cls, |s| - |TrimStartBy(s, cls)|)
  {
    var t := TrimStartBy(s, cls);
    var r := TrimEndBy(t, cls);
    var a := |s| - |t|;
    assert r == s[a..a + |r|];
    assert forall i :: a + |r| <= i < |s| ==> s[i] == t[i - a];
  }

  /** Removes every leading and trailing character that belongs to `cls`
      (`str::trim_matches`): the result is a slice of `s` with only characters of
      the class around it, and it neither starts nor ends with one. */
  function TrimBy(s: string, cls: CharClass): (r: string)
    ensures exists a :: SliceWithClassOutside(s, r, cls, a)
    ensures r == [] || (!InClass(r[0], cls) && !InClass(r[|r| - 1], cls))
  {
    var t := TrimStartBy(s, cls);
    var r := TrimEndBy(t, cls);
    assert r != [] ==> r[0] == t[0];
    TrimmedIsSlice(s, cls);
    r
  }

  /** `str::trim`: the input without its leading and trailing whitespace. */
  function Trim(s: string): (r: string)
    ensures exists a :: SliceWithClassOutside(s, r, Whitespace, a)
    ensures r == [] || (!IsWhitespace(r[0]) && !IsWhitespace(r[|r| - 1]))
  {
    TrimBy(s, Whitespace)
  }

  /** `str::trim_matches(c)` for a single character `c`: the input without the
      runs of `c` at either end. */
  function TrimMatches(s: string, c: char): (r: string)
    ensures exists a :: SliceWithClassOutside(s, r, Exactly(c), a)
    ensures r == [] || (r[0] != c && r[|r| - 1] != c)
  {
    TrimBy(s, Exactly(c))
  }

  /** Index of the first `c` in `s`, or `|s|` when `c` does not occur. */
  function IndexOf(s: string, c: char): (k: nat)
    ensures k <= |s|
    ensures k < |s| ==> s[k] == c
    ensures forall i :: 0 <= i < k ==> s[i] != c
  {
    if s == [] || s[0] == c then 0 else 1 + IndexOf(s[1..], c)
  }

  function DropCarriageReturn(line: string): string
  {
    if line != [] && line[|line| - 1] == '\r' then line[..|line| - 1] else line
  }

  /** `str::lines`: lines end at "\n" or "\r\n"; the last line ending is optional,
      so a trailing "\n" does not start an extra empty line. */
  function Lines(s: string): (r: seq<string>)
    ensures r == [] <==> s == []
    ensures forall i :: 0 <= i < |r| ==> '\n' !in r[i]
    decreases |s|
  {
    if s == [] then []
    else
      var k := IndexOf(s, '\n');
      if k == |s| then [s] else [DropCarriageReturn(s[..k])] + Lines(s[k + 1..])
  }

  lemma LinesCons(line: string, rest: string)
    requires '\n' !in line
    requires line == [] || line[|line| - 1] != '\r'
    ensures Lines(line + "\n" + rest) == [line] + Lines(rest)
  {
    var s := line + "\n" + rest;
    var k := IndexOf(s, '\n');
    assert s[|line|] == '\n';
    assert forall i :: 0 <= i < |line| ==> s[i] == line[i];
    assert k == |line|;
    assert s[..k] == line;
    assert s[k + 1..] == rest;
  }

  /** `split_whitespace`: the maximal runs of non-whitespace characters, in order.
      `SplitWhitespaceSkipsLeading` and `SplitWhitespaceStep` below are its
      defining equations: leading whitespace yields nothing, and a token followed
      by whitespace or by the end yields that token first. */
  function SplitWhitespace(s: string): (r: seq<string>)
    ensures forall i :: 0 <= i < |r| ==> IsToken(r[i])
    decreases |s|
  {
    if s == [] then []
    else if IsWhitespace(s[0]) then SplitWhitespace(s[1..])
    else
      var n := LeadingCount(s, NonWhitespace);
      var token := s[..n];
      assert IsToken(token) by {
        forall i | 0 <= i < n ensures !IsWhitespace(token[i]) {
          assert InClass(s[i], NonWhitespace);
        }
      }
      [token] + SplitWhitespace(s[n..])
  }

  /** `join(sep)` on a list of strings. */
  function Join(parts: seq<string>, sep: string): string
  {
    if parts == [] then []
    else if |parts| == 1 then parts[0]
    else parts[0] + sep + Join(parts[1..], sep)
  }

  lemma {:induction false} LeadingCountPastPrefix(x: string, y: string, cls: CharClass)
    requires forall i :: 0 <= i < |x| ==> InClass(x[i], cls)
    ensures LeadingCount(x + y, cls) == |x| + LeadingCount(y, cls)
    decreases |x|
  {
    if x != [] {
      assert (x + y)[1..] == x[1..] + y;
      LeadingCountPastPrefix(x[1..], y, cls);
    } else {
      assert x + y == y;
    }
  }

  /** Leading whitespace never changes what `split_whitespace` yields. */
  lemma {:induction false} SplitWhitespaceSkipsLeading(x: string, y: string)
    requires forall i :: 0 <= i < |x| ==> IsWhitespace(x[i])
    ensures SplitWhitespace(x + y) == SplitWhitespace(y)
    decreases |x|
  {
    if x == [] {
      assert x + y == y;
    } else {
      assert (x + y)[1..] == x[1..] + y;
      SplitWhitespaceSkipsLeading(x[1..], y);
    }
  }

  /** A token followed by whitespace (or by nothing) is the first piece `split_whitespace` yields. */
  lemma SplitWhitespaceStep(token: string, tail: string)
    requires IsToken(token)
    requires tail == [] || IsWhitespace(tail[0])
    ensures SplitWhitespace(token + tail) == [token] + SplitWhitespace(tail)
  {
    var s := token + tail;
    assert s[0] == token[0];
    assert forall i :: 0 <= i < |token| ==> InClass(token[i], NonWhitespace);
    LeadingCountPastPrefix(token, tail, NonWhitespace);
    assert LeadingCount(tail, NonWhitespace) == 0;
    assert s[..|token|] == token;
    assert s[|token|..] == tail;
  }

  /** `split_whitespace` undoes `join(" ")` on whitespace-free, non-empty pieces. */
  lemma {:induction false} SplitWhitespaceOfJoin(parts: seq<string>)
    requires forall i :: 0 <= i < |parts| ==> IsToken(parts[i])
    ensures SplitWhitespace(Join(parts, " ")) == parts
    decreases |parts|
  {
    if parts == [] {
    } else if |parts| == 1 {
      SplitWhitespaceStep(parts[0], []);
      assert parts[0] + [] == parts[0];
    } else {
      var rest := Join(parts[1..], " ");
      assert Join(parts, " ") == parts[0] + (" " + rest);
      SplitWhitespaceStep(parts[0], " " + rest);
      SplitWhitespaceSkipsLeading(" ", rest);
      SplitWhitespaceOfJoin(parts[1..]);
      assert [parts[0]] + parts[1..] == parts;
    }
  }

  /** A `join(" ")` of tokens holds no line feed and does not end in a carriage return. */
  lemma {:induction false} JoinOfTokensIsOneLine(parts: seq<string>)
    requires forall i :: 0 <= i < |parts| ==> IsToken(parts[i])
    ensures '\n' !in Join(parts, " ")
    ensures parts != [] ==> var j := Join(parts, " "); j != [] && j[|j| - 1] != '\r'
    decreases |parts|
  {
    if parts != [] {
      var p := parts[0];
      if |parts| == 1 {
        assert !IsWhitespace(p[|p| - 1]);
      } else {
        JoinOfTokensIsOneLine(parts[1..]);
        var rest := Join(parts[1..], " ");
        assert Join(parts, " ") == p + " " + rest;
      }
    }
  }

  predicate IsDigit(c: char)
  {
    '0' <= c <= '9'
  }

  predicate AllDigits(s: string)
  {
    forall i :: 0 <= i < |s| ==> IsDigit(s[i])
  }

  /** The number a string of decimal digits denotes, most significant digit first. */
  function DigitsValue(s: string): nat
    requires AllDigits(s)
  {
    if s == [] then 0 else 10 * DigitsValue(s[..|s| - 1]) + (s[|s| - 1] as int - '0' as int)
  }

  /** The text of a usize from position `k`: a '+' sign exactly when `k` is 1,
      then at least one decimal digit. */
  predicate IsUsizeText(s: string, k: int)
  {
    0 <= k <= 1 && k < |s| && (k == 1 <==> s[0] == '+') && AllDigits(s[k..])
  }

  /** `str::parse::<usize>`: an optional '+', then at least one decimal digit, and
      a value that fits in a usize; anything else is an error. */
  function ParseUsize(s: string): (r: Option<nat>)
    ensures r.Some? <==> exists k :: IsUsizeText(s, k) && DigitsValue(s[k..]) <= UsizeMax
    ensures r.Some? ==> r.value <= UsizeMax
    ensures r.Some? ==> forall k :: IsUsizeText(s, k) ==> r.value == DigitsValue(s[k..])
  {
    var k := if |s| > 1 && s[0] == '+' then 1 else 0;
    var digits := s[k..];
    if digits != [] && AllDigits(digits) && DigitsValue(digits) <= UsizeMax then
      assert IsUsizeText(s, k);
      Some(DigitsValue(digits))
    else
      None
  }

  /** The decimal rendering of `n` (as the kernel writes its counters). */
  function Decimal(n: nat): (s: string)
    ensures s != [] && AllDigits(s)
    ensures DigitsValue(s) == n
  {
    var d := (n % 10 + '0' as int) as char;
    if n < 10 then [d]
    else
      var s := Decimal(n / 10) + [d];
      assert s[..|s| - 1] == Decimal(n / 10);
      s
  }

  lemma ParseUsizeOfDecimal(n: nat)
    requires n <= UsizeMax
    ensures ParseUsize(Decimal(n)) == Some(n)
  {
    var s := Decimal(n);
    assert IsDigit(s[0]);
    assert s[0..] == s;
  }

  lemma DecimalIsToken(n: nat)
    ensures IsToken(Decimal(n))
  {
    var s := Decimal(n);
    forall i | 0 <= i < |s| ensures !IsWhitespace(s[i]) {
      assert IsDigit(s[i]);
    }
  }
}
