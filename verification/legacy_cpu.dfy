/**
 * The first `/proc/stat` reader (`src/cpu.rs`): the same fields and
 * formula as `SysStatsCpu`, but the line is split on every single space
 * with the empty pieces kept, so a run of spaces shifts the fields.
 */
module LegacyCpu {
  import opened Wrappers
  import opened Text
  import opened Decimal
  import opened Fields
  import opened Scans
  import SysStatsCpu

  /** `extract_cpu_utilization` over the raw pieces of the line. */
  function ExtractCpuUtilization(line: string): (r: Result<SysStatsCpu.CpuTime, ReadError>)
    ensures r.Ok? <==> SysStatsCpu.GetCpuTimes(SplitOn(line, ' ')).Ok?
    ensures r.Err? ==> r == Err(SysStatsCpu.GetCpuTimes(SplitOn(line, ' ')).error)
    ensures r.Ok? ==>
      var c := SysStatsCpu.GetCpuTimes(SplitOn(line, ' ')).value;
      r.value == SysStatsCpu.CpuTime(c.cpuId, c.userTime, c.systemTime, c.idleTime,
                                     SysStatsCpu.Utilization(c.userTime, c.systemTime, c.idleTime))
  {
    var c :- SysStatsCpu.GetCpuTimes(SplitOn(line, ' '));
    Ok(SysStatsCpu.ComputeCpuUtilization(c))
  }

  /**
   * Two spaces after the id put an empty piece where the user time should
   * be, and parsing the empty string fails; the line of the newer reader's
   * unit test, `cpu   4705 0   1234 ...`, is one such line.
   */
  lemma DoubleSpaceAfterIdFails(id: string, rest: string)
    requires ' ' !in id
    ensures ExtractCpuUtilization(id + "  " + rest) == Err(ParseFailed(Empty))
    ensures SysStatsCpu.ExtractCpuUtilization(id + "  " + rest) == SysStatsCpu.ExtractCpuUtilization(id + " " + rest)
  {
    assert id + "  " + rest == id + [' '] + (" " + rest);
    assert " " + rest == "" + [' '] + rest;
    SplitOnAround(id, " " + rest, ' ');
    SplitOnAround("", rest, ' ');
    SplitOnWithout(id, ' ');
    SplitOnWithout("", ' ');
    var raw := SplitOn(id + "  " + rest, ' ');
    assert raw[..2] == [id, ""];
    SysStatsCpu.CpuSpacingIrrelevant(id, rest);
  }

  /** On a line without doubled, leading or trailing spaces both readers agree. */
  lemma AgreesOnSingleSpaced(line: string)
    requires forall k :: 0 <= k < |SplitOn(line, ' ')| ==> SplitOn(line, ' ')[k] != ""
    ensures ExtractCpuUtilization(line) == SysStatsCpu.ExtractCpuUtilization(line)
  {
    TokensOfSingleSpaced(line);
  }

  /** `cpu_usage_meas`: the same filter and push loop, with this extractor. */
  method CpuUsageMeas(lines: seq<string>) returns (r: Result<SysStatsCpu.CpuMeasurements, ReadError>)
    ensures r.Ok? ==> AllExtracted(Select(lines, SysStatsCpu.IsPerCoreLine), ExtractCpuUtilization, r.value.cpuTime)
    ensures r.Err? ==> exists j :: FailsFirstAt(Select(lines, SysStatsCpu.IsPerCoreLine), ExtractCpuUtilization, j, r.error)
  {
    var all := CollectSelected(lines, SysStatsCpu.IsPerCoreLine, ExtractCpuUtilization);
    if all.Err? {
      return Err(all.error);
    }
    return Ok(SysStatsCpu.CpuMeasurements(all.value));
  }
}
