/**
 * `/proc/diskstats`: one line per block device, whitespace-aligned, with the
 * fields of the kernel's iostats layout. The reader keeps the lines that
 * mention an `sd` device and builds one `Sd` record from each.
 */
module SysStatsDisk {
  import opened Wrappers
  import opened Text
  import opened Decimal
  import opened Fields
  import opened Scans

  /** One device: its name, "major.minor", and three counters. */
  datatype Sd = Sd(
    name: string,
    version: string,
    readsCompleted: u64,
    writesCompleted: u64,
    ioInProgress: u64)

  /** Every `sd` device, in file order. `Default` is the empty list. */
  datatype DiskStatMeasurements = DiskStatMeasurements(sdUtilization: seq<Sd>)

  const DefaultDiskStatMeasurements := DiskStatMeasurements([])

  /** The line filter of the reader loop. */
  predicate IsSdLine(line: string) {
    Contains(line, " sd")
  }

  /** A line is read as a disk exactly when " sd" occurs at some position of it. */
  lemma SdLineAt(line: string)
    ensures IsSdLine(line) <==> exists i :: OccursAt(line, " sd", i)
  {
    ContainsAt(line, " sd");
  }

  /**
   * `extract_disk_statistics`: token 2 is the name, tokens 0 and 1 the
   * version, tokens 3, 7 and 10 the counters, read in that order.
   */
  function ExtractDiskStatistics(line: string): (r: Result<Sd, ReadError>)
    ensures var ts := Tokens(line);
      r.Ok? <==> |ts| >= 11 && IsU64Text(ts[3]) && IsU64Text(ts[7]) && IsU64Text(ts[10])
    ensures var ts := Tokens(line);
      r.Ok? ==>
        r.value.name == ts[2] &&
        r.value.version == ts[0] + "." + ts[1] &&
        r.value.readsCompleted as int == DecimalValue(Unsigned(ts[3])) &&
        r.value.writesCompleted as int == DecimalValue(Unsigned(ts[7])) &&
        r.value.ioInProgress as int == DecimalValue(Unsigned(ts[10]))
    ensures var ts := Tokens(line);
      |ts| < 3 ==> r == Err(IndexOutOfBounds(2, |ts|))
    ensures var ts := Tokens(line);
      |ts| >= 4 && !IsU64Text(ts[3]) ==> r == Err(ParseFailed(ParseU64(ts[3]).error))
  {
    var ts := Tokens(line);
    var name :- Field(ts, 2);
    // with token 2 present, tokens 0 and 1 are too
    var version := ts[0] + "." + ts[1];
    var readsCompleted :- ParseField(ts, 3);
    var writesCompleted :- ParseField(ts, 7);
    var ioInProgress :- ParseField(ts, 10);
    Ok(Sd(name, version, readsCompleted, writesCompleted, ioInProgress))
  }

  /**
   * A device line written out with single spaces reads back as the record
   * the code builds from it: counters from iostats fields 1, 5 and 8
   * (`fields` starts at the first counter, "reads completed").
   */
  lemma DiskLineRoundTrip(major: string, minor: string, name: string, fields: seq<u64>)
    requires IsToken(major) && IsToken(minor) && IsToken(name)
    requires |fields| >= 8
    ensures ExtractDiskStatistics(Join([major, minor, name] + Decimals(fields), ' '))
         == Ok(Sd(name, major + "." + minor, fields[0], fields[4], fields[7]))
  {
    var ts := [major, minor, name] + Decimals(fields);
    TokensOfJoin(ts);
    ParseFieldOfDecimal(ts, 3, fields[0]);
    ParseFieldOfDecimal(ts, 7, fields[4]);
    ParseFieldOfDecimal(ts, 10, fields[7]);
  }

  /** Runs of spaces between fields do not move them. */
  lemma DiskSpacingIrrelevant(a: string, b: string)
    ensures ExtractDiskStatistics(a + "  " + b) == ExtractDiskStatistics(a + " " + b)
  {
    RunsOfSpacesCollapse(a, b);
  }

  /**
   * The unit test's device: any line for device 8:0 `sda` whose first,
   * fifth and eighth counters are 157698, 789012 and 0.
   */
  lemma DiskTestLine(fields: seq<u64>)
    requires |fields| >= 8 && fields[0] == 157698 && fields[4] == 789012 && fields[7] == 0
    ensures ExtractDiskStatistics(Join(["8", "0", "sda"] + Decimals(fields), ' '))
         == Ok(Sd("sda", "8.0", 157698, 789012, 0))
  {
    var r := ExtractDiskStatistics(Join(["8", "0", "sda"] + Decimals(fields), ' '));
    DiskLineRoundTrip("8", "0", "sda", fields);
    assert r == Ok(Sd("sda", "8" + "." + "0", 157698, 789012, 0));
    assert "8" + "." + "0" == "8.0";
  }

  /**
   * The record as the iostats layout defines it: "I/Os currently in
   * progress" is iostats field 9, token 11, one past "time spent writing"
   * (token 10) that the code reads.
   */
  function ExtractDiskStatisticsCorrected(line: string): (r: Result<Sd, ReadError>)
    ensures var ts := Tokens(line);
      r.Ok? <==> |ts| >= 12 && IsU64Text(ts[3]) && IsU64Text(ts[7]) && IsU64Text(ts[11])
    ensures var ts := Tokens(line);
      r.Ok? ==> r.value.ioInProgress as int == DecimalValue(Unsigned(ts[11]))
  {
    var ts := Tokens(line);
    var name :- Field(ts, 2);
    var version := ts[0] + "." + ts[1];
    var readsCompleted :- ParseField(ts, 3);
    var writesCompleted :- ParseField(ts, 7);
    var ioInProgress :- ParseField(ts, 11);
    Ok(Sd(name, version, readsCompleted, writesCompleted, ioInProgress))
  }

  /** The corrected reader takes the in-progress count from iostats field 9. */
  lemma DiskLineRoundTripCorrected(major: string, minor: string, name: string, fields: seq<u64>)
    requires IsToken(major) && IsToken(minor) && IsToken(name)
    requires |fields| >= 9
    ensures ExtractDiskStatisticsCorrected(Join([major, minor, name] + Decimals(fields), ' '))
         == Ok(Sd(name, major + "." + minor, fields[0], fields[4], fields[8]))
  {
    var ts := [major, minor, name] + Decimals(fields);
    TokensOfJoin(ts);
    ParseFieldOfDecimal(ts, 3, fields[0]);
    ParseFieldOfDecimal(ts, 7, fields[4]);
    ParseFieldOfDecimal(ts, 11, fields[8]);
  }

  /**
   * On any device line whose "time spent writing" differs from its "I/Os
   * in progress", the code reports the former as the latter; for instance
   * `8 0 sda 1 0 0 0 2 0 0 30 4 40 44` gives 30 where 4 I/Os are in flight.
   */
  lemma DiskInProgressMisread(major: string, minor: string, name: string, fields: seq<u64>)
    requires IsToken(major) && IsToken(minor) && IsToken(name)
    requires |fields| >= 9 && fields[7] != fields[8]
    ensures var line := Join([major, minor, name] + Decimals(fields), ' ');
      ExtractDiskStatistics(line).Ok? && ExtractDiskStatisticsCorrected(line).Ok? &&
      ExtractDiskStatistics(line).value.ioInProgress == fields[7] &&
      ExtractDiskStatisticsCorrected(line).value.ioInProgress == fields[8] &&
      ExtractDiskStatistics(line).value.ioInProgress != ExtractDiskStatisticsCorrected(line).value.ioInProgress
  {
    DiskLineRoundTrip(major, minor, name, fields);
    DiskLineRoundTripCorrected(major, minor, name, fields);
  }

  /**
   * `disk_utility_meas` over the file's lines: one record per line holding
   * " sd", in file order; the first line that cannot be read ends the
   * whole read with its error.
   */
  method DiskUtilityMeas(lines: seq<string>) returns (r: Result<DiskStatMeasurements, ReadError>)
    ensures r.Ok? ==> AllExtracted(Select(lines, IsSdLine), ExtractDiskStatistics, r.value.sdUtilization)
    ensures r.Err? ==> exists j :: FailsFirstAt(Select(lines, IsSdLine), ExtractDiskStatistics, j, r.error)
  {
    var all := CollectSelected(lines, IsSdLine, ExtractDiskStatistics);
    if all.Err? {
      return Err(all.error);
    }
    return Ok(DiskStatMeasurements(all.value));
  }
}
