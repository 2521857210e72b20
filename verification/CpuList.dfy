/** CPU lists such as "0-3,8" (src/config.cpp:13-18 and 46-79). */
module CpuList {
  import opened Lists

  const LIMIT: int := 1048575

  // ----- numbers -----

  predicate IsDigit(c: char) {
    '0' <= c <= '9'
  }

  predicate IsSpace(c: char) {
    c == ' ' || '\t' <= c <= '\r'
  }

  function DigitOf(c: char): int
    requires IsDigit(c)
  {
    c as int - '0' as int
  }

  function CharOf(d: int): (c: char)
    requires 0 <= d < 10
    ensures IsDigit(c) && DigitOf(c) == d
  {
    (d + '0' as int) as char
  }

  predicate AllDigits(s: string) {
    forall i :: 0 <= i < |s| ==> IsDigit(s[i])
  }

  /** `operator<<` of a number. */
  function Digits(n: nat): (r: string)
    ensures r != "" && AllDigits(r)
  {
    if n < 10 then [CharOf(n)] else Digits(n / 10) + [CharOf(n % 10)]
  }

  function ValueOf(s: string): nat
    requires AllDigits(s)
  {
    if s == "" then 0 else 10 * ValueOf(s[..|s| - 1]) + DigitOf(s[|s| - 1])
  }

  lemma {:induction false} ValueOfDigits(n: nat)
    ensures ValueOf(Digits(n)) == n
  {
    var s := Digits(n);
    if n < 10 {
      assert s[..|s| - 1] == "";
    } else {
      assert s[..|s| - 1] == Digits(n / 10);
      ValueOfDigits(n / 10);
    }
  }

  /** How many digits a text starts with. */
  function LeadingDigits(s: string): (k: nat)
    ensures k <= |s| && AllDigits(s[..k]) && (k < |s| ==> !IsDigit(s[k]))
  {
    if s == "" || !IsDigit(s[0]) then 0
    else
      var k := LeadingDigits(s[1..]);
      assert s[..k + 1] == [s[0]] + s[1..][..k];
      k + 1
  }

  function SkipSpace(s: string): string {
    if s != "" && IsSpace(s[0]) then SkipSpace(s[1..]) else s
  }

  /** `std::stoi`: spaces, a sign, then digits up to the first other character. */
  function Stoi(s: string): Result<int> {
    var t := SkipSpace(s);
    var signed := t != "" && (t[0] == '-' || t[0] == '+');
    var digits := if signed then t[1..] else t;
    var k := LeadingDigits(digits);
    if k == 0 then Err("stoi")
    else
      var v: int := ValueOf(digits[..k]);
      var v := if signed && t[0] == '-' then -v else v;
      if v < -2147483648 || v > 2147483647 then Err("stoi") else Ok(v)
  }

  lemma {:induction false} LeadingAll(s: string)
    requires AllDigits(s)
    ensures LeadingDigits(s) == |s|
  {
    if s != "" {
      LeadingAll(s[1..]);
    }
  }

  /** Reading a written number. */
  lemma StoiOfDigits(n: nat)
    requires n <= LIMIT
    ensures Stoi(Digits(n)) == Ok(n)
  {
    var s := Digits(n);
    assert IsDigit(s[0]);
    LeadingAll(s);
    ValueOfDigits(n);
    assert s[..|s|] == s;
    hide Digits, ValueOf, LeadingDigits;
  }

  // ----- text -----

  /** Position of a character, or the length. */
  function Find(s: string, c: char): (k: nat)
    ensures k <= |s| && (k < |s| ==> s[k] == c) && forall i :: 0 <= i < k ==> s[i] != c
  {
    if s == "" || s[0] == c then 0
    else
      var k := Find(s[1..], c);
      assert forall i :: 0 < i < k + 1 ==> s[i] == s[1..][i - 1];
      k + 1
  }

  lemma FindIs(s: string, c: char, k: nat)
    requires k <= |s| && (k < |s| ==> s[k] == c) && forall i :: 0 <= i < k ==> s[i] != c
    ensures Find(s, c) == k
  {
    hide Find;
  }

  function TrimRight(s: string): string {
    if s != "" && IsSpace(s[|s| - 1]) then TrimRight(s[..|s| - 1]) else s
  }

  function Trim(s: string): string {
    TrimRight(SkipSpace(s))
  }

  /** Lines 51-57: one element of a list. */
  function ParsePart(part: string): Result<(int, int)> {
    var p := Trim(part);
    if p == "" then Err("empty CPU-list element")
    else
      var dash := Find(p, '-');
      var first := Stoi(p[..dash]);
      if first.Err? then Err(first.error)
      else
        var last := if dash == |p| then first else Stoi(p[dash + 1..]);
        if last.Err? then Err(last.error)
        else if first.value < 0 || last.value < first.value || last.value > LIMIT then Err("invalid CPU range")
        else Ok((first.value, last.value))
  }

  /** `std::getline` with ',': a comma at the end opens no element. */
  function Parts(text: string): seq<string>
    decreases |text|
  {
    if text == "" then []
    else
      var k := Find(text, ',');
      if k == |text| then [text] else [text[..k]] + Parts(text[k + 1..])
  }

  function Span(first: int, last: int): (r: set<int>)
    ensures forall x :: x in r <==> first <= x <= last
    decreases last - first + 1
  {
    if last < first then {} else Span(first, last - 1) + {last}
  }

  /** The CPUs of all elements, or the first error. */
  function Union(parts: seq<string>): Result<set<int>> {
    if parts == [] then Ok({})
    else
      var n := |parts| - 1;
      var before := Union(parts[..n]);
      if before.Err? then before
      else
        var p := ParsePart(parts[n]);
        if p.Err? then Err(p.error) else Ok(before.value + Span(p.value.0, p.value.1))
  }

  function Parsed(text: string): Result<seq<int>> {
    var u := Union(Parts(text));
    if u.Err? then Err(u.error) else if u.value == {} then Err("CPU envelope must not be empty") else Ok(Ascending(u.value))
  }

  lemma {:induction false} UnionMore(parts: seq<string>, more: seq<string>)
    requires Union(parts).Err?
    ensures Union(parts + more) == Union(parts)
    decreases |more|
  {
    hide ParsePart, Span;
    if more == [] {
      assert parts + more == parts;
    } else {
      var n := |more| - 1;
      assert (parts + more)[..|parts| + n] == parts + more[..n];
      UnionMore(parts, more[..n]);
    }
  }

  /** `parse_cpu_list` (lines 46-62). */
  method ParseCpuList(text: string) returns (r: Result<seq<int>>)
    ensures r == Parsed(text)
    ensures r.Ok? ==> r.value != [] && Increasing(r.value) && forall c :: c in r.value ==> 0 <= c <= LIMIT
  {
    hide Find, ParsePart, Parts, Union;
    var result: set<int>, rest := {}, text;
    ghost var read: seq<string> := [];
    UnionNone();
    while rest != ""
      invariant Parts(text) == read + Parts(rest) && Union(read) == Ok(result)
      invariant forall c :: c in result ==> 0 <= c <= LIMIT
      decreases |rest|
    {
      var k := Find(rest, ',');
      var part := rest[..k];
      PartsStep(rest);
      rest := if k < |rest| then rest[k + 1..] else "";
      ghost var next := read + [part];
      assert Parts(text) == next + Parts(rest);
      UnionStep(read, part);
      PartRange(part);
      var p := ParsePart(part);
      if p.Err? {
        UnionMore(next, Parts(rest));
        return Err(p.error);
      }
      result := AddSpan(result, p.value.0, p.value.1);
      read := next;
    }
    PartsNone();
    assert Parts(text) == read;
    if result == {} {
      return Err("CPU envelope must not be empty");
    }
    r := Ok(Ascending(result));
    Inhabited(result);
    hide Ascending;
    var c :| c in result;
    assert c in r.value;
  }

  lemma PartsNone()
    ensures Parts("") == []
  {
  }

  lemma PartsStep(text: string)
    requires text != ""
    ensures var k := Find(text, ','); Parts(text) == [text[..k]] + Parts(if k < |text| then text[k + 1..] else "")
  {
    hide Find;
    var k := Find(text, ',');
    if k == |text| {
      assert text[..k] == text;
    }
  }

  lemma UnionNone()
    ensures Union([]) == Ok({})
  {
  }

  lemma UnionStep(parts: seq<string>, part: string)
    requires Union(parts).Ok?
    ensures ParsePart(part).Err? ==> Union(parts + [part]) == Err(ParsePart(part).error)
    ensures ParsePart(part).Ok? ==> Union(parts + [part]) == Ok(Union(parts).value + Span(ParsePart(part).value.0, ParsePart(part).value.1))
  {
    hide ParsePart;
    var more := parts + [part];
    assert more[..|more| - 1] == parts && more[|more| - 1] == part;
  }

  lemma PartRange(part: string)
    ensures ParsePart(part).Ok? ==> 0 <= ParsePart(part).value.0 <= ParsePart(part).value.1 <= LIMIT
  {
    hide Trim, Find, Stoi;
  }

  /** Line 58. */
  method AddSpan(s: set<int>, first: int, last: int) returns (r: set<int>)
    requires first <= last
    ensures r == s + Span(first, last)
  {
    r := s;
    for cpu := first to last + 1
      invariant r == s + Span(first, cpu - 1)
    {
      r := r + {cpu};
    }
  }

  // ----- writing -----

  datatype Run = Run(first: int, last: int)

  /** The runs of consecutive numbers in an ascending list. */
  function Runs(cpus: seq<int>): seq<Run> {
    if cpus == [] then []
    else
      var n := |cpus| - 1;
      var before := Runs(cpus[..n]);
      if before != [] && before[|before| - 1].last + 1 == cpus[n]
      then before[|before| - 1 := Run(before[|before| - 1].first, cpus[n])]
      else before + [Run(cpus[n], cpus[n])]
  }

  predicate Maximal(runs: seq<Run>) {
    && (forall i :: 0 <= i < |runs| ==> runs[i].first <= runs[i].last)
    && (forall i, j :: 0 <= i < j < |runs| ==> runs[i].last + 1 < runs[j].first)
  }

  ghost predicate InRuns(runs: seq<Run>, x: int) {
    exists i :: 0 <= i < |runs| && runs[i].first <= x <= runs[i].last
  }

  /** The runs are as long as they can be, in ascending order, and hold exactly the listed numbers. */
  lemma {:induction false} RunsAreMaximal(cpus: seq<int>)
    requires Increasing(cpus)
    ensures Maximal(Runs(cpus)) && (cpus != [] ==> Runs(cpus) != [] && Runs(cpus)[|Runs(cpus)| - 1].last == cpus[|cpus| - 1])
    ensures forall x :: x in cpus <==> InRuns(Runs(cpus), x)
  {
    if cpus != [] {
      var n := |cpus| - 1;
      var rest, c := cpus[..n], cpus[n];
      RunsAreMaximal(rest);
      assert cpus == rest + [c];
      RunsStep(rest, c, Runs(rest), Runs(cpus));
    }
  }

  lemma RunsStep(rest: seq<int>, c: int, before: seq<Run>, after: seq<Run>)
    requires Maximal(before) && (rest == [] <==> before == []) && (rest != [] ==> before[|before| - 1].last == rest[|rest| - 1] < c)
    requires forall x :: x in rest <==> InRuns(before, x)
    requires after == if before != [] && before[|before| - 1].last + 1 == c
                      then before[|before| - 1 := Run(before[|before| - 1].first, c)]
                      else before + [Run(c, c)]
    ensures Maximal(after) && after != [] && after[|after| - 1].last == c
    ensures forall x :: x in rest + [c] <==> InRuns(after, x)
  {
    MaximalStep(before, c, after);
    assert before != [] ==> before[|before| - 1].first <= before[|before| - 1].last;
    hide Maximal, InRuns;
    forall x
      ensures x in rest + [c] <==> InRuns(after, x)
    {
      if before != [] && before[|before| - 1].last + 1 == c {
        InExtended(before, c, x);
      } else {
        InAppended(before, c, x);
      }
    }
  }

  lemma MaximalStep(before: seq<Run>, c: int, after: seq<Run>)
    requires Maximal(before) && (before != [] ==> before[|before| - 1].last < c)
    requires after == if before != [] && before[|before| - 1].last + 1 == c
                      then before[|before| - 1 := Run(before[|before| - 1].first, c)]
                      else before + [Run(c, c)]
    ensures Maximal(after)
  {
  }

  lemma InAppended(runs: seq<Run>, c: int, x: int)
    ensures InRuns(runs + [Run(c, c)], x) <==> InRuns(runs, x) || x == c
  {
    var more := runs + [Run(c, c)];
    if InRuns(runs, x) {
      var i :| 0 <= i < |runs| && runs[i].first <= x <= runs[i].last;
      assert more[i].first <= x <= more[i].last;
    }
    if x == c {
      assert more[|runs|].first <= x <= more[|runs|].last;
    }
  }

  lemma InExtended(runs: seq<Run>, c: int, x: int)
    requires runs != [] && runs[|runs| - 1].first <= runs[|runs| - 1].last && runs[|runs| - 1].last + 1 == c
    ensures var k := |runs| - 1; InRuns(runs[k := Run(runs[k].first, c)], x) <==> InRuns(runs, x) || x == c
  {
    var k := |runs| - 1;
    var more := runs[k := Run(runs[k].first, c)];
    if InRuns(runs, x) {
      var i :| 0 <= i < |runs| && runs[i].first <= x <= runs[i].last;
      assert more[i].first <= x <= more[i].last;
    }
    if x == c {
      assert more[k].first <= x <= more[k].last;
    }
    if InRuns(more, x) {
      var i :| 0 <= i < |more| && more[i].first <= x <= more[i].last;
      assert x == c || runs[i].first <= x <= runs[i].last;
    }
  }

  /** `operator<<` of an `int`. */
  function IntText(n: int): string {
    if n < 0 then "-" + Digits(-n) else Digits(n)
  }

  function RunText(r: Run): string {
    IntText(r.first) + if r.last != r.first then "-" + IntText(r.last) else ""
  }

  function Text(runs: seq<Run>): string {
    if runs == [] then ""
    else
      var n := |runs| - 1;
      Text(runs[..n]) + (if n > 0 then "," else "") + RunText(runs[n])
  }

  predicate Cpus(input: seq<int>) {
    forall i :: 0 <= i < |input| ==> 0 <= input[i] <= LIMIT
  }

  function Sorted(input: seq<int>): seq<int> {
    Ascending(set x | x in input)
  }

  lemma SortedCpus(input: seq<int>)
    requires Cpus(input)
    ensures Increasing(Sorted(input)) && Cpus(Sorted(input)) && (input != [] ==> Sorted(input) != [])
    ensures forall x :: x in Sorted(input) <==> x in input
  {
    hide Ascending;
    var s := Sorted(input);
    forall i | 0 <= i < |s|
      ensures 0 <= s[i] <= LIMIT
    {
      var x := s[i];
      assert x in s;
      assert x in input;
    }
    if input != [] {
      var x := input[0];
      assert x in input;
      assert x in s;
    }
  }

  lemma {:induction false} RunsInRange(cpus: seq<int>)
    requires Cpus(cpus) && Increasing(cpus)
    ensures forall i :: 0 <= i < |Runs(cpus)| ==> 0 <= Runs(cpus)[i].first <= Runs(cpus)[i].last <= LIMIT
  {
    if cpus != [] {
      RunsInRange(cpus[..|cpus| - 1]);
    }
  }

  /** The text of the maximal runs of the listed CPUs. */
  function Formatted(input: seq<int>): string {
    Text(Runs(Sorted(input)))
  }

  /** A block of consecutive numbers after a gap is one more run. */
  lemma {:induction false} RunsBlock(cpus: seq<int>, i: nat, j: nat)
    requires Increasing(cpus) && i <= j < |cpus| && (i > 0 ==> cpus[i - 1] + 1 != cpus[i])
    requires forall k :: i < k <= j ==> cpus[k] == cpus[k - 1] + 1
    ensures Runs(cpus[..j + 1]) == Runs(cpus[..i]) + [Run(cpus[i], cpus[j])]
    decreases j
  {
    assert cpus[..j + 1][..j] == cpus[..j];
    if i == j {
      if i > 0 {
        RunsAreMaximal(cpus[..i]);
      } else {
        assert cpus[..i] == [];
      }
    } else {
      RunsBlock(cpus, i, j - 1);
    }
  }

  lemma TextMore(runs: seq<Run>, r: Run)
    ensures Text(runs + [r]) == Text(runs) + (if runs != [] then "," else "") + RunText(r)
  {
    hide RunText;
    var more := runs + [r];
    assert more[..|more| - 1] == runs && more[|more| - 1] == r;
  }

  /** Lines 73-75. */
  method WriteRun(before: string, comma: bool, r: Run) returns (out: string)
    ensures out == before + (if comma then "," else "") + RunText(r)
  {
    hide IntText;
    out := before;
    if comma {
      out := out + ",";
    }
    out := out + IntText(r.first);
    if r.last != r.first {
      out := out + "-" + IntText(r.last);
    }
  }

  /** Line 72. */
  method EndOfRun(cpus: seq<int>, i: nat) returns (j: nat)
    requires i < |cpus|
    ensures i <= j < |cpus| && (forall k :: i < k <= j ==> cpus[k] == cpus[k - 1] + 1)
    ensures j + 1 < |cpus| ==> cpus[j + 1] != cpus[j] + 1
  {
    j := i;
    while j + 1 < |cpus| && cpus[j + 1] == cpus[j] + 1
      invariant i <= j < |cpus| && forall k :: i < k <= j ==> cpus[k] == cpus[k - 1] + 1
    {
      j := j + 1;
    }
  }

  /** `format_cpu_list` (lines 64-79): the text of the maximal runs. */
  method FormatCpuList(input: seq<int>) returns (out: string)
    ensures out == Formatted(input)
  {
    hide Runs, Text, RunText, Ascending;
    var cpus := Sorted(input);
    assert Increasing(cpus);
    hide Sorted, Increasing;
    out := "";
    TextOfNone();
    var i := 0;
    assert cpus[..0] == [];
    while i < |cpus|
      invariant i <= |cpus| && (0 < i < |cpus| ==> cpus[i - 1] + 1 != cpus[i])
      invariant out == Text(Runs(cpus[..i])) && (Runs(cpus[..i]) == [] <==> i == 0)
    {
      var j := EndOfRun(cpus, i);
      RunsBlock(cpus, i, j);
      TextMore(Runs(cpus[..i]), Run(cpus[i], cpus[j]));
      out := WriteRun(out, i > 0, Run(cpus[i], cpus[j]));
      i := j + 1;
    }
    assert cpus[..|cpus|] == cpus;
  }

  lemma TextOfNone()
    ensures Runs([]) == [] && Text([]) == ""
  {
  }

  // ----- reading what was written -----

  lemma CutBehind(a: string, b: string, k: nat)
    requires k < |a|
    ensures var all := a + "," + b; all[..k] == a[..k] && all[k] == a[k] && all[k + 1..] == a[k + 1..] + "," + b
  {
  }

  lemma CutAtEnd(a: string, b: string)
    ensures var all := a + "," + b; all[..|a|] == a && all[|a|] == ',' && all[|a| + 1..] == b
  {
  }

  lemma {:induction false} PartsSnoc(a: string, b: string)
    requires a != "" && a[|a| - 1] != ',' && b != "" && Find(b, ',') == |b|
    ensures Parts(a + "," + b) == Parts(a) + [b]
    decreases |a|
  {
    hide Find, Parts;
    var k, all := Find(a, ','), a + "," + b;
    FindIs(all, ',', k);
    PartsStep(all);
    PartsStep(a);
    PartsStep(b);
    PartsNone();
    if k == |a| {
      CutAtEnd(a, b);
      assert b[..|b|] == b && a[..|a|] == a;
    } else {
      CutBehind(a, b, k);
      PartsSnoc(a[k + 1..], b);
    }
  }

  lemma DigitsHaveNo(n: nat, c: char)
    requires !IsDigit(c)
    ensures Find(Digits(n), c) == |Digits(n)|
  {
    hide Digits;
    FindIs(Digits(n), c, |Digits(n)|);
  }

  lemma TrimKeeps(s: string)
    requires s != "" && IsDigit(s[0]) && IsDigit(s[|s| - 1])
    ensures Trim(s) == s
  {
  }

  lemma RunTextShape(r: Run)
    requires 0 <= r.first <= r.last
    ensures var t := RunText(r); t != "" && IsDigit(t[0]) && IsDigit(t[|t| - 1]) && Find(t, ',') == |t|
  {
    hide Digits;
    var t, a, b := RunText(r), Digits(r.first), Digits(r.last);
    assert forall i :: 0 <= i < |t| ==> t[i] != ',';
    FindIs(t, ',', |t|);
  }

  /** An element that was written is read back. */
  lemma PartOfOne(k: int)
    requires 0 <= k <= LIMIT
    ensures ParsePart(RunText(Run(k, k))) == Ok((k, k))
  {
    var t := RunText(Run(k, k));
    RunTextShape(Run(k, k));
    assert t == Digits(k);
    hide Trim, Stoi, Digits, RunText, Find;
    TrimKeeps(t);
    StoiOfDigits(k);
    DigitsHaveNo(k, '-');
    assert t[..|t|] == t;
  }

  /** The dash of a range is the first one. */
  lemma DashFound(t: string, a: string, b: string)
    requires t == a + "-" + b && Find(a, '-') == |a|
    ensures Find(t, '-') == |a| < |t| && t[..|a|] == a && t[|a| + 1..] == b
  {
    hide Find;
    assert forall i :: 0 <= i < |a| ==> t[i] == a[i];
    FindIs(t, '-', |a|);
  }

  lemma RangeParsed(t: string, k: nat, first: int, last: int)
    requires t != "" && Trim(t) == t && Find(t, '-') == k < |t|
    requires Stoi(t[..k]) == Ok(first) && Stoi(t[k + 1..]) == Ok(last) && 0 <= first <= last <= LIMIT
    ensures ParsePart(t) == Ok((first, last))
  {
    hide Trim, Stoi, Find;
  }

  lemma PartOfMany(r: Run)
    requires 0 <= r.first < r.last <= LIMIT
    ensures ParsePart(RunText(r)) == Ok((r.first, r.last))
  {
    var t, a, b := RunText(r), Digits(r.first), Digits(r.last);
    assert t == a + "-" + b;
    hide *;
    RunTextShape(r);
    TrimKeeps(t);
    StoiOfDigits(r.first);
    StoiOfDigits(r.last);
    DashIsNoDigit();
    DigitsHaveNo(r.first, '-');
    DashFound(t, a, b);
    RangeParsed(t, |a|, r.first, r.last);
  }

  lemma DashIsNoDigit()
    ensures !IsDigit('-')
  {
  }

  lemma PartOfRun(r: Run)
    requires 0 <= r.first <= r.last <= LIMIT
    ensures ParsePart(RunText(r)) == Ok((r.first, r.last))
  {
    hide ParsePart, RunText;
    if r.first == r.last {
      PartOfOne(r.first);
      assert r == Run(r.first, r.first);
    } else {
      PartOfMany(r);
    }
  }

  ghost function Covered(runs: seq<Run>): set<int> {
    if runs == [] then {} else Covered(runs[..|runs| - 1]) + Span(runs[|runs| - 1].first, runs[|runs| - 1].last)
  }

  lemma {:induction false} TextShape(runs: seq<Run>)
    requires runs != [] && forall i :: 0 <= i < |runs| ==> 0 <= runs[i].first <= runs[i].last
    ensures var t := Text(runs); t != "" && IsDigit(t[|t| - 1])
  {
    var n := |runs| - 1;
    RunTextShape(runs[n]);
    var tail := RunText(runs[n]);
    var t := Text(runs);
    hide RunText;
    assert t[|t| - 1] == tail[|tail| - 1];
  }

  lemma {:induction false} UnionOfText(runs: seq<Run>)
    requires forall i :: 0 <= i < |runs| ==> 0 <= runs[i].first <= runs[i].last <= LIMIT
    ensures Union(Parts(Text(runs))) == Ok(Covered(runs))
  {
    if runs == [] {
      PartsNone();
      UnionNone();
    } else {
      var n := |runs| - 1;
      var front, last := runs[..n], RunText(runs[n]);
      UnionOfText(front);
      RunTextShape(runs[n]);
      PartOfRun(runs[n]);
      hide RunText, ParsePart, Find, Union;
      UnionStep(Parts(Text(front)), last);
      if n > 0 {
        TextShape(front);
        PartsSnoc(Text(front), last);
        assert Text(runs) == Text(front) + "," + last;
      } else {
        assert Text(runs) == last;
        PartsStep(last);
        PartsNone();
        assert Parts(Text(front)) + [last] == [last[..|last|]] + [];
      }
    }
  }

  lemma {:induction false} CoveredIsRuns(runs: seq<Run>, x: int)
    ensures x in Covered(runs) <==> InRuns(runs, x)
  {
    if runs != [] {
      var n := |runs| - 1;
      CoveredIsRuns(runs[..n], x);
      if x in Covered(runs[..n]) {
        var i :| 0 <= i < n && runs[..n][i].first <= x <= runs[..n][i].last;
        assert runs[i].first <= x <= runs[i].last;
      }
      if InRuns(runs, x) {
        var i :| 0 <= i < |runs| && runs[i].first <= x <= runs[i].last;
        if i < n {
          assert runs[..n][i].first <= x <= runs[..n][i].last;
        }
      }
    }
  }

  /** Parsing a formatted list gives back its CPUs, in order and each once. */
  lemma RoundTrip(input: seq<int>)
    requires Cpus(input) && input != []
    ensures Parsed(Formatted(input)) == Ok(Sorted(input))
  {
    SortedCpus(input);
    var cpus := Sorted(input);
    RunsInRange(cpus);
    RunsAreMaximal(cpus);
    UnionOfText(Runs(cpus));
    hide Runs, Text, Union, Parts, Ascending;
    CoveredAll(input);
    var x := input[0];
    assert x in set y | y in input;
  }

  lemma CoveredAll(input: seq<int>)
    requires Cpus(input)
    ensures Covered(Runs(Sorted(input))) == set x | x in input
  {
    SortedCpus(input);
    RunsAreMaximal(Sorted(input));
    hide Runs, Covered, Sorted, InRuns;
    forall x
      ensures x in Covered(Runs(Sorted(input))) <==> x in input
    {
      CoveredIsRuns(Runs(Sorted(input)), x);
    }
  }

  lemma FormatSame(a: seq<int>, b: seq<int>)
    requires forall x :: x in a <==> x in b
    ensures Formatted(a) == Formatted(b)
  {
    hide Runs, Text, Ascending;
    var p, q := set x | x in a, set x | x in b;
    forall x
      ensures x in p <==> x in q
    {
    }
    assert p == q;
  }

  /** Formatting is canonical: two lists are formatted alike exactly when they have the same CPUs. */
  lemma FormatCanonical(a: seq<int>, b: seq<int>)
    requires Cpus(a) && Cpus(b) && a != [] && b != []
    ensures Formatted(a) == Formatted(b) <==> forall x :: x in a <==> x in b
  {
    hide *;
    RoundTrip(a);
    RoundTrip(b);
    SortedCpus(a);
    SortedCpus(b);
    if forall x :: x in a <==> x in b {
      FormatSame(a, b);
    }
  }
}
