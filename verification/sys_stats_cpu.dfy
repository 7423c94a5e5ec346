/**
 * `/proc/stat`: one line per CPU (`cpuN user nice system idle ...`) after
 * an aggregate `cpu` line. The reader keeps the per-core lines and turns
 * each into a `CpuTime` whose utilization is the busy share of
 * user + system + idle, in percent.
 */
module SysStatsCpu {
  import opened Wrappers
  import opened Text
  import opened Decimal
  import opened Fields
  import opened Scans

  /** An `f64` that is either a number or the NaN of `0.0 / 0.0`. */
  datatype Real64 = Num(value: real) | NaN

  datatype CpuTime = CpuTime(
    cpuId: string,
    userTime: u64,
    systemTime: u64,
    idleTime: u64,
    utilization: Real64)

  /** Every per-core record, in file order. `Default` is the empty list. */
  datatype CpuMeasurements = CpuMeasurements(cpuTime: seq<CpuTime>)

  const DefaultCpuMeasurements := CpuMeasurements([])

  /** The line filter of the reader loop: a `cpu` line that is not the aggregate `cpu ` one. */
  predicate IsPerCoreLine(line: string) {
    Contains(line, "cpu") && !Contains(line, "cpu ")
  }

  /** A line is read as a core exactly when "cpu" occurs in it and "cpu " occurs nowhere in it. */
  lemma PerCoreLineAt(line: string)
    ensures IsPerCoreLine(line) <==>
      (exists i :: OccursAt(line, "cpu", i)) && forall i :: !OccursAt(line, "cpu ", i)
  {
    ContainsAt(line, "cpu");
    ContainsAt(line, "cpu ");
  }

  /**
   * (user + system) * 100 / (user + system + idle) in exact arithmetic; the
   * division of zero by zero gives NaN.
   */
  function Utilization(user: u64, system: u64, idle: u64): (r: Real64)
    ensures r.NaN? <==> user as int + system as int + idle as int == 0
    ensures r.Num? ==>
      r.value * (user as real + system as real + idle as real) == (user as real + system as real) * 100.0
  {
    var total := user as real + system as real + idle as real;
    if total == 0.0 then NaN else Num((user as real + system as real) * 100.0 / total)
  }

  /** A busy share is a percentage: between 0 and 100 whenever it is defined. */
  lemma UtilizationIsPercentage(user: u64, system: u64, idle: u64)
    ensures Utilization(user, system, idle).Num? ==>
      0.0 <= Utilization(user, system, idle).value <= 100.0
  {
    var busy := user as real + system as real;
    var total := busy + idle as real;
    if total != 0.0 {
      var u := Utilization(user, system, idle).value;
      assert u * total == busy * 100.0;
      assert busy * 100.0 <= total * 100.0;
    }
  }

  /**
   * `get_cpu_times`: token 0 is the id, tokens 1, 3 and 4 are user, system
   * and idle time (token 2, nice, is skipped); utilization starts at 0.
   */
  function GetCpuTimes(ts: seq<string>): (r: Result<CpuTime, ReadError>)
    ensures r.Ok? <==> |ts| >= 5 && IsU64Text(ts[1]) && IsU64Text(ts[3]) && IsU64Text(ts[4])
    ensures r.Ok? ==>
      r.value.cpuId == ts[0] &&
      r.value.userTime as int == DecimalValue(Unsigned(ts[1])) &&
      r.value.systemTime as int == DecimalValue(Unsigned(ts[3])) &&
      r.value.idleTime as int == DecimalValue(Unsigned(ts[4])) &&
      r.value.utilization == Num(0.0)
    ensures |ts| == 0 ==> r == Err(IndexOutOfBounds(0, 0))
    ensures |ts| >= 2 && !IsU64Text(ts[1]) ==> r == Err(ParseFailed(ParseU64(ts[1]).error))
  {
    var cpuId :- Field(ts, 0);
    var userTime :- ParseField(ts, 1);
    var systemTime :- ParseField(ts, 3);
    var idleTime :- ParseField(ts, 4);
    Ok(CpuTime(cpuId, userTime, systemTime, idleTime, Num(0.0)))
  }

  /** `compute_cpu_utilization`: overwrites the utilization, and nothing else, from the three times. */
  function ComputeCpuUtilization(c: CpuTime): (r: CpuTime)
    ensures r.cpuId == c.cpuId && r.userTime == c.userTime
    ensures r.systemTime == c.systemTime && r.idleTime == c.idleTime
    ensures r.utilization.NaN? <==> c.userTime as int + c.systemTime as int + c.idleTime as int == 0
    ensures r.utilization.Num? ==>
      r.utilization.value * (c.userTime as real + c.systemTime as real + c.idleTime as real)
        == (c.userTime as real + c.systemTime as real) * 100.0
  {
    c.(utilization := Utilization(c.userTime, c.systemTime, c.idleTime))
  }

  /** `extract_cpu_utilization`: tokenise, read the times, then fill in the utilization. */
  function ExtractCpuUtilization(line: string): (r: Result<CpuTime, ReadError>)
    ensures r.Ok? <==> GetCpuTimes(Tokens(line)).Ok?
    ensures r.Err? ==> r == Err(GetCpuTimes(Tokens(line)).error)
    ensures r.Ok? ==>
      var c := GetCpuTimes(Tokens(line)).value;
      r.value == CpuTime(c.cpuId, c.userTime, c.systemTime, c.idleTime,
                         Utilization(c.userTime, c.systemTime, c.idleTime))
  {
    var c :- GetCpuTimes(Tokens(line));
    Ok(ComputeCpuUtilization(c))
  }

  /**
   * A per-core line written out with single spaces reads back as its id and
   * times, whatever the nice field and the fields after idle hold.
   */
  lemma CpuLineRoundTrip(id: string, user: u64, nice: u64, system: u64, idle: u64, rest: seq<u64>)
    requires IsToken(id)
    ensures ExtractCpuUtilization(Join([id] + Decimals([user, nice, system, idle] + rest), ' '))
         == Ok(CpuTime(id, user, system, idle, Utilization(user, system, idle)))
  {
    var ts := [id] + Decimals([user, nice, system, idle] + rest);
    TokensOfJoin(ts);
    ParseFieldOfDecimal(ts, 1, user);
    ParseFieldOfDecimal(ts, 3, system);
    ParseFieldOfDecimal(ts, 4, idle);
  }

  /** Runs of spaces between fields do not move them. */
  lemma CpuSpacingIrrelevant(a: string, b: string)
    ensures ExtractCpuUtilization(a + "  " + b) == ExtractCpuUtilization(a + " " + b)
  {
    RunsOfSpacesCollapse(a, b);
  }

  /**
   * The unit test's line `cpu 4705 0 1234 5678 ...`: user 4705, system 1234,
   * idle 5678, and a utilization of 593900/11617, within 0.001 of 51.1233.
   */
  lemma CpuTestLine(rest: seq<u64>)
    ensures var r := ExtractCpuUtilization(Join(["cpu"] + Decimals([4705, 0, 1234, 5678] + rest), ' '));
      r == Ok(CpuTime("cpu", 4705, 1234, 5678, Num(593900.0 / 11617.0))) &&
      51.1223 < r.value.utilization.value < 51.1243
  {
    CpuLineRoundTrip("cpu", 4705, 0, 1234, 5678, rest);
    assert Utilization(4705, 1234, 5678) == Num(593900.0 / 11617.0);
  }

  /** The aggregate line is never read as a core. */
  lemma AggregateLineSkipped(rest: string)
    ensures !IsPerCoreLine("cpu " + rest)
  {
    assert "cpu " <= "cpu " + rest;
  }

  /**
   * `cpu_usage_meas` over the file's lines: one record per per-core line,
   * in file order; the first line that cannot be read ends the whole read.
   */
  method CpuUsageMeas(lines: seq<string>) returns (r: Result<CpuMeasurements, ReadError>)
    ensures r.Ok? ==> AllExtracted(Select(lines, IsPerCoreLine), ExtractCpuUtilization, r.value.cpuTime)
    ensures r.Err? ==> exists j :: FailsFirstAt(Select(lines, IsPerCoreLine), ExtractCpuUtilization, j, r.error)
  {
    var all := CollectSelected(lines, IsPerCoreLine, ExtractCpuUtilization);
    if all.Err? {
      return Err(all.error);
    }
    return Ok(CpuMeasurements(all.value));
  }
}
