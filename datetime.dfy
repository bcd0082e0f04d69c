/** The `date_time_info` tool (Agent.py:129-146). The instant read from the
    system clock is a parameter: its already formatted date, time and month
    name, its year and its weekday index (0 for Monday). */
module DateTimeTool {
  import opened Wrappers
  import opened Text

  /** The Gregorian rule: divisible by 4 and not by 100, or divisible by 400. */
  predicate IsLeap(year: int)
  {
    (year % 4 == 0 && year % 100 != 0) || year % 400 == 0
  }

  lemma LeapExamples()
    ensures IsLeap(2000) && !IsLeap(1900) && IsLeap(2024) && !IsLeap(2023)
  {
  }

  /** Number of leap years in [0, n). */
  function LeapYearsBelow(n: nat): nat
  {
    if n == 0 then 0 else LeapYearsBelow(n - 1) + (if IsLeap(n - 1) then 1 else 0)
  }

  lemma {:induction false} LeapYearsBelowClosedForm(n: nat)
    ensures LeapYearsBelow(n) == (n + 3) / 4 - (n + 99) / 100 + (n + 399) / 400
  {
    if n > 0 {
      LeapYearsBelowClosedForm(n - 1);
      var y := n - 1;
      DivStep(y, 4);
      DivStep(y, 100);
      DivStep(y, 400);
      var a, b, c := (y + 3) / 4, (y + 99) / 100, (y + 399) / 400;
      assert LeapYearsBelow(y) == a - b + c;
      DivisibilityChain(y);
      var da := if y % 4 == 0 then 1 else 0;
      var db := if y % 100 == 0 then 1 else 0;
      var dc := if y % 400 == 0 then 1 else 0;
      assert (if IsLeap(y) then 1 else 0) == da - db + dc;
      assert LeapYearsBelow(n) == a + da - (b + db) + (c + dc);
    }
  }

  lemma DivisibilityChain(y: nat)
    ensures y % 400 == 0 ==> y % 100 == 0
    ensures y % 100 == 0 ==> y % 4 == 0
  {
    if y % 400 == 0 {
      var k := y / 400;
      assert y == 100 * (4 * k);
    }
    if y % 100 == 0 {
      var k := y / 100;
      assert y == 4 * (25 * k);
    }
  }

  lemma DivStep(y: nat, d: nat)
    requires d in {4, 100, 400}
    ensures (y + d) / d == (y + d - 1) / d + (if y % d == 0 then 1 else 0)
  {
    var q, r := y / d, y % d;
    assert y == d * q + r;
    assert y + d == d * (q + 1) + r;
    assert (y + d) / d == q + 1;
    if r == 0 {
      assert y + d - 1 == d * q + (d - 1);
      assert (y + d - 1) / d == q;
    } else {
      assert y + d - 1 == d * (q + 1) + (r - 1);
      assert (y + d - 1) / d == q + 1;
    }
  }

  /** Every run of 400 consecutive years holds exactly 97 leap years. */
  lemma LeapYearsPer400(n: nat)
    ensures LeapYearsBelow(n + 400) - LeapYearsBelow(n) == 97
  {
    LeapYearsBelowClosedForm(n);
    LeapYearsBelowClosedForm(n + 400);
    assert (n + 403) / 4 == (n + 3) / 4 + 100;
    assert (n + 499) / 100 == (n + 99) / 100 + 4;
    assert (n + 799) / 400 == (n + 399) / 400 + 1;
  }

  /** The "是否闰年" value. */
  function LeapFlag(year: int): (r: string)
    ensures r == "是" <==> IsLeap(year)
    ensures r == "否" <==> !IsLeap(year)
  {
    if (year % 4 == 0 && year % 100 != 0) || (year % 400 == 0) then "是" else "否"
  }

  const WeekdayNames: seq<string> := ["一", "二", "三", "四", "五", "六", "日"]

  /** `now.weekday()` is 0 for Monday through 6 for Sunday. */
  function WeekdayName(index: nat): string
    requires index < 7
  {
    WeekdayNames[index]
  }

  /** The inverse of the table. */
  function WeekdayIndex(name: string): (r: Option<nat>)
    ensures r.Some? ==> r.value < 7 && WeekdayName(r.value) == name
    ensures r.None? ==> forall i :: 0 <= i < 7 ==> WeekdayName(i) != name
  {
    if name == "一" then Some(0) else if name == "二" then Some(1) else if name == "三" then Some(2)
    else if name == "四" then Some(3) else if name == "五" then Some(4) else if name == "六" then Some(5)
    else if name == "日" then Some(6) else None
  }

  /** The table names seven different days, Monday first and Sunday last. */
  lemma WeekdayTable(i: nat)
    requires i < 7
    ensures WeekdayIndex(WeekdayName(i)) == Some(i)
    ensures WeekdayName(0) == "一" && WeekdayName(6) == "日"
  {
  }

  /** The clock reading the tool formats. */
  datatype Clock = Clock(date: string, time: string, monthName: string, year: nat, weekday: nat)

  /** The `info` dictionary, in insertion order. */
  function Items(c: Clock): (r: seq<(string, string)>)
    requires c.weekday < 7
    ensures |r| == 6
  {
    [("当前日期", c.date), ("当前时间", c.time), ("星期", WeekdayName(c.weekday)),
     ("月份", c.monthName), ("年份", Decimal(c.year)), ("是否闰年", LeapFlag(c.year))]
  }

  const ReportHeader := "📅 日期时间信息：\n"

  function Line(item: (string, string)): string
  {
    "  • " + item.0 + ": " + item.1 + "\n"
  }

  function Lines(items: seq<(string, string)>): string
  {
    if items == [] then "" else Line(items[0]) + Lines(items[1..])
  }

  function Report(items: seq<(string, string)>): string
  {
    ReportHeader + Lines(items)
  }

  lemma {:induction false} LinesConcat(a: seq<(string, string)>, b: seq<(string, string)>)
    ensures Lines(a + b) == Lines(a) + Lines(b)
  {
    if a == [] {
      assert a + b == b;
    } else {
      assert (a + b)[0] == a[0];
      assert (a + b)[1..] == a[1..] + b;
      LinesConcat(a[1..], b);
    }
  }

  lemma LinesAppend(items: seq<(string, string)>, item: (string, string))
    ensures Lines(items + [item]) == Lines(items) + Line(item)
  {
    LinesConcat(items, [item]);
    assert [item][1..] == [];
  }

  /** Each item has its own line, in insertion order. */
  lemma LinesOrder(items: seq<(string, string)>, k: nat)
    requires k < |items|
    ensures Lines(items) == Lines(items[..k]) + Line(items[k]) + Lines(items[k + 1..])
  {
    var rest := items[k..];
    assert items == items[..k] + rest;
    LinesConcat(items[..k], rest);
    assert rest[0] == items[k] && rest[1..] == items[k + 1..];
  }

  /** The report holds the weekday's line. */
  lemma ReportNamesWeekday(c: Clock)
    requires c.weekday < 7
    ensures Occurs("  • 星期: " + WeekdayName(c.weekday) + "\n", Report(Items(c)))
  {
    var items := Items(c);
    LinesOrder(items, 2);
    var line := Line(items[2]);
    var pre := ReportHeader + Lines(items[..2]);
    var post := Lines(items[3..]);
    var r := Report(items);
    assert r == pre + (line + post);
    assert r[|pre|..] == line + post;
    assert (line + post)[..|line|] == line;
    assert StartsWith(r[|pre|..], line);
  }

  /** The report ends with the leap-year line. */
  lemma ReportEndsWithLeapFlag(c: Clock)
    requires c.weekday < 7
    ensures Report(Items(c)) == Report(Items(c)[..5]) + "  • 是否闰年: " + LeapFlag(c.year) + "\n"
  {
    var items := Items(c);
    assert items == items[..5] + [items[5]];
    LinesAppend(items[..5], items[5]);
  }

  /** `date_time_info`: the report is built by appending one line per item. */
  method DateTimeInfo(c: Clock) returns (result: string)
    requires c.weekday < 7
    ensures result == Report(Items(c))
  {
    var info := Items(c);
    result := ReportHeader;
    for i := 0 to |info|
      invariant result == ReportHeader + Lines(info[..i])
    {
      var (key, value) := info[i];
      LinesAppend(info[..i], info[i]);
      assert info[..i + 1] == info[..i] + [info[i]];
      result := result + ("  • " + key + ": " + value + "\n");
    }
    assert info[..|info|] == info;
  }
}
