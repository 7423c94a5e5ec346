/**
 * The first `/proc/meminfo` reader (`src/memory.rs`): the same loop as
 * `SysStatsMemory`, but each branch takes the second-to-last raw piece of
 * a split on single spaces, empty pieces kept.
 */
module LegacyMemory {
  import opened Wrappers
  import opened Text
  import opened Decimal
  import opened Fields
  import SysStatsMemory

  /** `mem_data[mem_data.len() - 2].parse::<u64>()` over the raw pieces of the line. */
  function ExtractMemConsumption(line: string): (r: Result<u64, ReadError>)
    ensures var raw := SplitOn(line, ' ');
      r.Ok? <==> |raw| >= 2 && IsU64Text(raw[|raw| - 2])
    ensures var raw := SplitOn(line, ' ');
      r.Ok? ==> r.value as int == DecimalValue(Unsigned(raw[|raw| - 2]))
    ensures |SplitOn(line, ' ')| < 2 ==> r == Err(LengthUnderflow)
  {
    var raw := SplitOn(line, ' ');
    if |raw| < 2 then Err(LengthUnderflow) else ParseField(raw, |raw| - 2)
  }

  /**
   * With the number and the unit one space apart, both readers find the
   * number, however the key is padded: the layout of the kernel's own file.
   */
  lemma ReadsAlignedLine(key: string, n: u64, unit: string)
    requires IsToken(unit)
    ensures ExtractMemConsumption(key + " " + ToDecimal(n as int) + " " + unit) == Ok(n)
    ensures SysStatsMemory.ExtractMemConsumption(key + " " + ToDecimal(n as int) + " " + unit) == Ok(n)
  {
    RawAlignedLine(key, n, unit);
    TokensAlignedLine(key, n, unit);
  }

  lemma RawAlignedLine(key: string, n: u64, unit: string)
    requires IsToken(unit)
    ensures ExtractMemConsumption(key + " " + ToDecimal(n as int) + " " + unit) == Ok(n)
  {
    var d := ToDecimal(n as int);
    DigitsAreToken(d);
    SplitOnSnoc(key, d);
    SplitOnSnoc(key + " " + d, unit);
    ParseToDecimal(n);
  }

  lemma TokensAlignedLine(key: string, n: u64, unit: string)
    requires IsToken(unit)
    ensures SysStatsMemory.ExtractMemConsumption(key + " " + ToDecimal(n as int) + " " + unit) == Ok(n)
  {
    var d := ToDecimal(n as int);
    DigitsAreToken(d);
    TokensSnoc(key, d);
    TokensSnoc(key + " " + d, unit);
    ParseToDecimal(n);
  }

  /**
   * Two spaces before the unit put an empty piece at length - 2, and parsing
   * the empty string fails; the line of the newer reader's unit test,
   * `MemTotal:   16384   kB`, is one such line.
   */
  lemma DoubleSpaceBeforeUnitFails(front: string, unit: string)
    requires ' ' !in unit
    ensures ExtractMemConsumption(front + "  " + unit) == Err(ParseFailed(Empty))
    ensures SysStatsMemory.ExtractMemConsumption(front + "  " + unit)
         == SysStatsMemory.ExtractMemConsumption(front + " " + unit)
  {
    assert front + "  " + unit == front + [' '] + ("" + [' '] + unit);
    SplitOnAround(front, "" + [' '] + unit, ' ');
    SplitOnAround("", unit, ' ');
    SplitOnWithout("", ' ');
    SplitOnWithout(unit, ' ');
    SysStatsMemory.MemSpacingIrrelevant(front, unit);
  }

  /** On a line without doubled, leading or trailing spaces both readers agree. */
  lemma AgreesOnSingleSpaced(line: string)
    requires forall k :: 0 <= k < |SplitOn(line, ' ')| ==> SplitOn(line, ' ')[k] != ""
    ensures ExtractMemConsumption(line) == SysStatsMemory.ExtractMemConsumption(line)
  {
    TokensOfSingleSpaced(line);
  }

  /** `memory_consumption_meas`: the same `if` / `else if` loop, with this extractor. */
  method MemoryConsumptionMeas(lines: seq<string>) returns (r: Result<SysStatsMemory.MemoryMeasurments, ReadError>)
    ensures r == SysStatsMemory.Meminfo(lines, ExtractMemConsumption)
  {
    r := SysStatsMemory.ScanMeminfo(lines, ExtractMemConsumption);
  }
}
