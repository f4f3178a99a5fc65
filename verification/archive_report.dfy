/**
 * The test-report side of Archive.js: reading a stage's mochawesome report, rendering its
 * duration, and folding the two stages' results into the pipeline's single verdict.
 */
module ArchiveReport {
  import opened Wrappers
  import opened Lodash
  import Text

  /**
   * A report's `stats` object: the counts the verdict and the duration depend on (absent ones are
   * `None`), and every other key of the object as it stands in the report.
   */
  datatype Stats = Stats(failures: Option<int>, skipped: Option<int>, duration: Option<nat>, others: map<string, Json>)

  /** A report whose `stats` field is missing is read as `{}`: no counts and no other keys. */
  const NoStats: Stats := Stats(None, None, None, map[])

  /**
   * A stage's test result: not run by configuration, run without leaving a report, or reported.
   * Only the first two carry a summary the verdict uses; a reported result's summary and pass
   * percentages are left out of the model.
   */
  datatype TestResult =
    | Skipped(summary: string)
    | Missing(summary: string)
    | Reported(stats: Stats, duration: string)

  /** The report file a test stage leaves in its output directory. */
  const ReportFile: string := "/mochawesome.json"
  const E2EName: string := "端对端测试"
  const UnitName: string := "单元测试"
  const E2EFailedLine: string := "端到端测试不通过"
  const UnitFailedLine: string := "单元测试不通过"

  /** `duration / 1000` as JavaScript prints it: whole seconds, then up to three decimals without trailing zeros. */
  function SecondsText(ms: nat): (r: string)
    ensures ms % 1000 == 0 ==> r == Text.NatText(ms / 1000)
    ensures ms % 1000 != 0 ==> r == Text.NatText(ms / 1000) + "." + Fraction(ms % 1000)
  {
    if ms % 1000 == 0 then Text.NatText(ms / 1000) else Text.NatText(ms / 1000) + "." + Fraction(ms % 1000)
  }

  /** The decimals of `f / 1000` for `0 < f < 1000`: three digits with the trailing zeros dropped. */
  function Fraction(f: nat): (r: string)
    requires 0 < f < 1000
    ensures 1 <= |r| <= 3 && Text.AllDigits(r) && r[|r| - 1] != '0'
  {
    if f % 100 == 0 then [Text.Digit(f / 100)]
    else if f % 10 == 0 then [Text.Digit(f / 100), Text.Digit(f / 10 % 10)]
    else [Text.Digit(f / 100), Text.Digit(f / 10 % 10), Text.Digit(f % 10)]
  }

  /** `getDurationShow(duration)`: seconds under a minute, otherwise whole minutes then the seconds left. */
  function DurationShow(duration: nat): (r: string)
    ensures duration < 60000 ==> r == SecondsText(duration) + "秒"
    ensures duration >= 60000 ==> r == Text.NatText(duration / 60000) + "分" + SecondsText(duration % 60000) + "秒"
  {
    if duration < 60000 then SecondsText(duration) + "秒"
    else Text.NatText(duration / 60000) + "分" + SecondsText(duration % 60000) + "秒"
  }

  /** The length of the run of decimal digits at the start of `s`. */
  function DigitRun(s: string): (n: nat)
    ensures n <= |s|
    ensures forall i :: 0 <= i < n ==> Text.IsDigit(s[i])
    ensures n < |s| ==> !Text.IsDigit(s[n])
  {
    if |s| > 0 && Text.IsDigit(s[0]) then 1 + DigitRun(s[1..]) else 0
  }

  /** `10^(3 - n)`, the weight of the last of `n` decimals in thousandths. */
  function Thousandths(n: nat): nat
    requires n <= 3
  {
    if n == 3 then 1 else if n == 2 then 10 else if n == 1 then 100 else 1000
  }

  /** The thousandths a string of decimals stands for; anything else reads as none. */
  function ReadFraction(t: string): nat {
    if |t| <= 3 && Text.AllDigits(t) then Text.ParseNat(t) * Thousandths(|t|) else 0
  }

  /** Milliseconds read back from a seconds text `I` or `I.FFF`: an independent reader for `SecondsText`. */
  function ReadSeconds(s: string): nat {
    var k := DigitRun(s);
    Text.ParseNat(s[..k]) * 1000 + (if k < |s| && s[k] == '.' then ReadFraction(s[k + 1..]) else 0)
  }

  /** A duration read back from `getDurationShow`'s text, minutes and seconds, without the final `秒`. */
  function ReadDuration(s: string): nat {
    var body := if |s| > 0 && s[|s| - 1] == '秒' then s[..|s| - 1] else s;
    var k := DigitRun(body);
    if k < |body| && body[k] == '分' then Text.ParseNat(body[..k]) * 60000 + ReadSeconds(body[k + 1..])
    else ReadSeconds(body)
  }

  /** A run of digits followed by a non-digit is read up to there. */
  lemma {:induction false} DigitRunStops(a: string, b: string)
    requires Text.AllDigits(a)
    requires |b| > 0 && !Text.IsDigit(b[0])
    ensures DigitRun(a + b) == |a| && (a + b)[..|a|] == a
    decreases |a|
  {
    if |a| > 0 {
      assert (a + b)[1..] == a[1..] + b;
      DigitRunStops(a[1..], b);
    } else {
      assert (a + b)[0] == b[0];
    }
  }

  /** A string of nothing but digits is read whole. */
  lemma {:induction false} DigitRunAll(a: string)
    requires Text.AllDigits(a)
    ensures DigitRun(a) == |a|
    decreases |a|
  {
    if |a| > 0 {
      DigitRunAll(a[1..]);
    }
  }

  /** Reading one more digit multiplies by ten and adds it. */
  lemma ParseAppend(s: string, d: nat)
    requires Text.AllDigits(s) && d < 10
    ensures Text.AllDigits(s + [Text.Digit(d)])
    ensures Text.ParseNat(s + [Text.Digit(d)]) == Text.ParseNat(s) * 10 + d
  {
    assert (s + [Text.Digit(d)])[..|s|] == s;
  }

  /** A number under a thousand is its three decimal digits. */
  lemma ThreeDigits(f: nat)
    requires f < 1000
    ensures f == (f / 100) * 100 + (f / 10 % 10) * 10 + f % 10
    ensures f % 100 == 0 ==> f == (f / 100) * 100
    ensures f % 10 == 0 ==> f == ((f / 100) * 10 + f / 10 % 10) * 10
  {
  }

  /** The decimals read back give the thousandths they came from. */
  lemma ReadFractionBack(f: nat)
    requires 0 < f < 1000
    ensures ReadFraction(Fraction(f)) == f
  {
    var a, b, c := f / 100, f / 10 % 10, f % 10;
    ThreeDigits(f);
    ParseAppend([], a);
    assert [] + [Text.Digit(a)] == [Text.Digit(a)];
    if f % 100 == 0 {
      assert Fraction(f) == [Text.Digit(a)];
      assert ReadFraction(Fraction(f)) == a * 100;
    } else {
      ParseAppend([Text.Digit(a)], b);
      assert [Text.Digit(a)] + [Text.Digit(b)] == [Text.Digit(a), Text.Digit(b)];
      if f % 10 == 0 {
        assert Fraction(f) == [Text.Digit(a), Text.Digit(b)];
        assert ReadFraction(Fraction(f)) == (a * 10 + b) * 10;
      } else {
        ParseAppend([Text.Digit(a), Text.Digit(b)], c);
        assert [Text.Digit(a), Text.Digit(b)] + [Text.Digit(c)] == [Text.Digit(a), Text.Digit(b), Text.Digit(c)];
        assert Fraction(f) == [Text.Digit(a), Text.Digit(b), Text.Digit(c)];
        assert ReadFraction(Fraction(f)) == (a * 10 + b) * 10 + c;
      }
    }
  }

  /** Reading back `SecondsText` gives the milliseconds it came from. */
  lemma SecondsRoundTrip(ms: nat)
    ensures ReadSeconds(SecondsText(ms)) == ms
  {
    var whole := Text.NatText(ms / 1000);
    Text.ParseNatText(ms / 1000);
    if ms % 1000 == 0 {
      DigitRunAll(whole);
      assert whole[..|whole|] == whole;
    } else {
      var frac := Fraction(ms % 1000);
      assert SecondsText(ms) == whole + ("." + frac);
      DigitRunStops(whole, "." + frac);
      assert SecondsText(ms)[|whole| + 1..] == frac;
      ReadFractionBack(ms % 1000);
    }
  }

  /** A seconds text never holds the minutes mark where its digits end. */
  lemma SecondsTextNoMinutes(ms: nat)
    ensures var sec := SecondsText(ms);
      DigitRun(sec) < |sec| ==> sec[DigitRun(sec)] == '.'
  {
    var whole := Text.NatText(ms / 1000);
    if ms % 1000 != 0 {
      assert SecondsText(ms) == whole + ("." + Fraction(ms % 1000));
      DigitRunStops(whole, "." + Fraction(ms % 1000));
    } else {
      DigitRunAll(whole);
    }
  }

  /** Under a minute the text is the seconds and `秒`. */
  lemma ShortDurationRoundTrip(duration: nat)
    requires duration < 60000
    ensures ReadDuration(DurationShow(duration)) == duration
  {
    var s := DurationShow(duration);
    var sec := SecondsText(duration);
    assert s[..|s| - 1] == sec;
    SecondsRoundTrip(duration);
    SecondsTextNoMinutes(duration);
  }

  /** From a minute on the text is the minutes, `分`, the seconds left and `秒`. */
  lemma LongDurationRoundTrip(duration: nat)
    requires duration >= 60000
    ensures ReadDuration(DurationShow(duration)) == duration
  {
    ReadMinutes(duration / 60000, SecondsText(duration % 60000));
    SecondsRoundTrip(duration % 60000);
  }

  /** Minutes, `分`, a seconds text and `秒` read back as the minutes in milliseconds plus the seconds read. */
  lemma ReadMinutes(m: nat, sec: string)
    ensures ReadDuration(Text.NatText(m) + "分" + sec + "秒") == m * 60000 + ReadSeconds(sec)
  {
    var minutes := Text.NatText(m);
    var s := minutes + "分" + sec + "秒";
    var body := minutes + ("分" + sec);
    assert s[..|s| - 1] == body;
    DigitRunStops(minutes, "分" + sec);
    Text.ParseNatText(m);
    assert body[|minutes| + 1..] == sec;
  }

  /** Reading back `getDurationShow`'s text gives the duration it came from, so no two durations print alike. */
  lemma DurationRoundTrip(duration: nat)
    ensures ReadDuration(DurationShow(duration)) == duration
  {
    if duration < 60000 {
      ShortDurationRoundTrip(duration);
    } else {
      LongDurationRoundTrip(duration);
    }
  }

  /** The duration of the unit test fixture. */
  lemma UnitDurationExample()
    ensures DurationShow(112) == "0.112秒"
  {
    assert Text.NatText(0) == "0";
    assert Fraction(112) == "112";
    assert SecondsText(112) == "0" + "." + "112";
  }

  /** The duration of the end-to-end fixture. */
  lemma E2EDurationExample()
    ensures DurationShow(597825) == "9分57.825秒"
  {
    E2ESeconds();
    assert Text.NatText(9) == "9";
    assert DurationShow(597825) == "9" + "分" + "57.825" + "秒";
  }

  /** The seconds left in the end-to-end fixture's duration. */
  lemma E2ESeconds()
    ensures SecondsText(57825) == "57.825"
  {
    assert Text.NatText(57) == "57" by {
      assert Text.NatText(5) == "5";
    }
    assert Fraction(825) == "825";
    assert SecondsText(57825) == "57" + "." + "825";
  }

  /**
   * `getTestReport(name, shouldRun, path)`: a stage configured off gives only a skip notice; a
   * stage that ran but left no report at `path` gives only a missing notice; otherwise the
   * report's stats (`{}` when it has none) with the duration rendered, an absent one as zero.
   */
  function GetTestReport(name: string, shouldRun: bool, path: string, reportAt: string -> Option<Stats>): (r: TestResult)
    ensures r.Skipped? <==> !shouldRun
    ensures r.Missing? <==> shouldRun && reportAt(path).None?
    ensures r.Skipped? ==> r.summary == "已配置不执行" + name + "！"
    ensures r.Missing? ==> r.summary == name + "失败，没有测试报告！"
    ensures r.Reported? ==> r.stats == reportAt(path).value && r.duration == DurationShow(OrDefault(r.stats.duration, 0))
  {
    if !shouldRun then Skipped("已配置不执行" + name + "！")
    else if reportAt(path).None? then Missing(name + "失败，没有测试报告！")
    else Reported(reportAt(path).value, DurationShow(OrDefault(reportAt(path).value.duration, 0)))
  }

  /** `x || 0` for a count that may be absent. */
  function OrDefault(v: Option<nat>, dflt: nat): nat {
    if v.Some? then v.value else dflt
  }

  /** A reported side fails unless its failure and skip counts are both present and zero (`undefined != 0`). */
  predicate Failing(t: TestResult) {
    t.Reported? && (t.stats.failures != Some(0) || t.stats.skipped != Some(0))
  }

  /** The union verdict: 0 for success, 1 for a failing side, 2 for a side with no stats. */
  datatype Union = Union(result: int, summary: string)

  /**
   * The verdict `run` computes: each side without stats sets 2 and adds its summary line, then
   * each failing side sets 1 and adds its own line, so a failure overrides a missing side.
   */
  function UnionOf(e2e: TestResult, unit: TestResult): (r: Union)
  {
    var r0 := Union(0, "");
    var r1 := if !e2e.Reported? then Union(2, r0.summary + e2e.summary + "\n") else r0;
    var r2 := if !unit.Reported? then Union(2, r1.summary + unit.summary + "\n") else r1;
    var r3 := if Failing(e2e) then Union(1, r2.summary + E2EFailedLine + "\n") else r2;
    if Failing(unit) then Union(1, r3.summary + UnitFailedLine + "\n") else r3
  }

  /**
   * The three verdicts exactly: 1 when some side fails, else 2 when some side has no stats, else
   * 0; and the summary is empty exactly on success.
   */
  lemma UnionVerdict(e2e: TestResult, unit: TestResult)
    ensures var r := UnionOf(e2e, unit);
      && (r.result == 1 <==> Failing(e2e) || Failing(unit))
      && (r.result == 2 <==> !Failing(e2e) && !Failing(unit) && (!e2e.Reported? || !unit.Reported?))
      && (r.result == 0 <==> e2e.Reported? && unit.Reported? && !Failing(e2e) && !Failing(unit))
      && (r.summary == "" <==> r.result == 0)
  {
  }

  /** A report whose stats lack the counts, `{}` included, fails the verdict. */
  lemma MissingCountsFail(duration: string)
    ensures Failing(Reported(NoStats, duration))
    ensures UnionOf(Reported(NoStats, duration), Reported(Stats(Some(0), Some(0), None, map[]), duration)).result == 1
  {
  }

  /**
   * The unit test fixture (no failures, one test skipped by a timeout) fails the verdict even
   * though nothing failed.
   */
  lemma TimedOutTestFails(e2e: TestResult)
    ensures UnionOf(e2e, Reported(Stats(Some(0), Some(1), Some(112), map[]), "0.112秒")).result == 1
  {
  }
}
