/**
 * `/proc/meminfo`: lines such as `MemTotal:   16384 kB`. The reader keeps
 * three sizes, each set by the second-to-last token of the latest line for
 * its key; a line goes to the first key it mentions.
 */
module SysStatsMemory {
  import opened Wrappers
  import opened Text
  import opened Decimal
  import opened Fields
  import opened Scans

  /** Sizes in kB. `Default` is all zero. */
  datatype MemoryMeasurments = MemoryMeasurments(memTotal: u64, memFree: u64, memAvail: u64)

  const DefaultMemoryMeasurments := MemoryMeasurments(0, 0, 0)

  /** The three branches of the `if` / `else if` chain; a line takes the first that matches. */
  predicate IsTotalLine(line: string) {
    Contains(line, "MemTotal:")
  }

  predicate IsFreeLine(line: string) {
    !Contains(line, "MemTotal:") && Contains(line, "MemFree:")
  }

  predicate IsAvailLine(line: string) {
    !Contains(line, "MemTotal:") && !Contains(line, "MemFree:") && Contains(line, "MemAvailable:")
  }

  /** A line that one of the branches reads. */
  predicate IsMeminfoLine(line: string) {
    IsTotalLine(line) || IsFreeLine(line) || IsAvailLine(line)
  }

  /**
   * Which branch reads a line: the total where "MemTotal:" occurs; the free
   * count where "MemFree:" occurs and "MemTotal:" nowhere; the available
   * count where "MemAvailable:" occurs and neither of the others does.
   */
  lemma MeminfoLineAt(line: string)
    ensures IsTotalLine(line) <==> exists i :: OccursAt(line, "MemTotal:", i)
    ensures IsFreeLine(line) <==>
      (forall i :: !OccursAt(line, "MemTotal:", i)) && exists i :: OccursAt(line, "MemFree:", i)
    ensures IsAvailLine(line) <==>
      (forall i :: !OccursAt(line, "MemTotal:", i)) && (forall i :: !OccursAt(line, "MemFree:", i)) &&
      exists i :: OccursAt(line, "MemAvailable:", i)
    ensures IsMeminfoLine(line) <==> exists i ::
      OccursAt(line, "MemTotal:", i) || OccursAt(line, "MemFree:", i) || OccursAt(line, "MemAvailable:", i)
  {
    ContainsAt(line, "MemTotal:");
    ContainsAt(line, "MemFree:");
    ContainsAt(line, "MemAvailable:");
  }

  /** `extract_mem_consumption`: the second-to-last token, parsed as a `u64`. */
  function ExtractMemConsumption(line: string): (r: Result<u64, ReadError>)
    ensures var ts := Tokens(line);
      r.Ok? <==> |ts| >= 2 && IsU64Text(ts[|ts| - 2])
    ensures var ts := Tokens(line);
      r.Ok? ==> r.value as int == DecimalValue(Unsigned(ts[|ts| - 2]))
    ensures |Tokens(line)| < 2 ==> r == Err(LengthUnderflow)
  {
    var ts := Tokens(line);
    if |ts| < 2 then Err(LengthUnderflow) else ParseField(ts, |ts| - 2)
  }

  /** A meminfo line written out with single spaces reads back as its size. */
  lemma MemLineRoundTrip(key: seq<string>, n: u64, unit: string)
    requires forall k :: 0 <= k < |key| ==> IsToken(key[k])
    requires IsToken(unit)
    ensures ExtractMemConsumption(Join(key + [ToDecimal(n as int), unit], ' ')) == Ok(n)
  {
    var ts := key + Decimals([n]) + [unit];
    assert key + [ToDecimal(n as int), unit] == ts;
    TokensOfJoin(ts);
    ParseFieldOfDecimal(ts, |ts| - 2, n);
  }

  /** Runs of spaces between fields do not move them. */
  lemma MemSpacingIrrelevant(a: string, b: string)
    ensures ExtractMemConsumption(a + "  " + b) == ExtractMemConsumption(a + " " + b)
  {
    RunsOfSpacesCollapse(a, b);
  }

  /**
   * One line of the loop: the first branch that matches overwrites its
   * size, or stops the read with the extractor's error.
   */
  function MeminfoStep(m: MemoryMeasurments, line: string, extract: string -> Result<u64, ReadError>)
    : Result<MemoryMeasurments, ReadError>
  {
    if Contains(line, "MemTotal:") then
      var v :- extract(line); Ok(m.(memTotal := v))
    else if Contains(line, "MemFree:") then
      var v :- extract(line); Ok(m.(memFree := v))
    else if Contains(line, "MemAvailable:") then
      var v :- extract(line); Ok(m.(memAvail := v))
    else
      Ok(m)
  }

  /** The sizes after reading `lines` from the start, or the error that stopped the read. */
  function Meminfo(lines: seq<string>, extract: string -> Result<u64, ReadError>)
    : Result<MemoryMeasurments, ReadError>
    decreases |lines|
  {
    if lines == [] then Ok(DefaultMemoryMeasurments)
    else
      var m :- Meminfo(lines[..|lines| - 1], extract);
      MeminfoStep(m, lines[|lines| - 1], extract)
  }

  /** A line changes at most one size: the one of the first key it mentions. */
  lemma MeminfoStepChangesOne(m: MemoryMeasurments, line: string, extract: string -> Result<u64, ReadError>)
    requires MeminfoStep(m, line, extract).Ok?
    ensures var m' := MeminfoStep(m, line, extract).value;
      (!IsTotalLine(line) ==> m'.memTotal == m.memTotal) &&
      (!IsFreeLine(line) ==> m'.memFree == m.memFree) &&
      (!IsAvailLine(line) ==> m'.memAvail == m.memAvail)
  {
  }

  /** Once the read has stopped, later lines do not matter. */
  lemma {:induction false} MeminfoErrorSticks(lines: seq<string>, i: nat, extract: string -> Result<u64, ReadError>)
    requires i <= |lines| && Meminfo(lines[..i], extract).Err?
    ensures Meminfo(lines, extract) == Meminfo(lines[..i], extract)
    decreases |lines|
  {
    if i < |lines| {
      var init := lines[..|lines| - 1];
      assert init[..i] == lines[..i];
      MeminfoErrorSticks(init, i, extract);
    } else {
      assert lines[..i] == lines;
    }
  }

  /** The read succeeds exactly when every line for one of the three keys has a readable size. */
  lemma {:induction false} MeminfoOkIff(lines: seq<string>, extract: string -> Result<u64, ReadError>)
    ensures Meminfo(lines, extract).Ok? <==>
      forall k :: 0 <= k < |lines| && IsMeminfoLine(lines[k]) ==> extract(lines[k]).Ok?
    decreases |lines|
  {
    if lines != [] {
      var init := lines[..|lines| - 1];
      MeminfoOkIff(init, extract);
      assert forall k :: 0 <= k < |init| ==> init[k] == lines[k];
    }
  }

  /**
   * Last match wins, per size: each holds the size on the last line its
   * branch took, or 0 when the branch never ran.
   */
  lemma {:induction false} MeminfoLastWins(lines: seq<string>, extract: string -> Result<u64, ReadError>)
    requires Meminfo(lines, extract).Ok?
    ensures var m := Meminfo(lines, extract).value;
      (match LastHit(lines, IsTotalLine) case None => m.memTotal == 0 case Some(l) => extract(l) == Ok(m.memTotal)) &&
      (match LastHit(lines, IsFreeLine) case None => m.memFree == 0 case Some(l) => extract(l) == Ok(m.memFree)) &&
      (match LastHit(lines, IsAvailLine) case None => m.memAvail == 0 case Some(l) => extract(l) == Ok(m.memAvail))
    decreases |lines|
  {
    if lines != [] {
      MeminfoLastWins(lines[..|lines| - 1], extract);
    }
  }

  /**
   * The loop of `memory_consumption_meas`: three sizes starting at 0,
   * updated line by line; the first unreadable size ends the read.
   */
  method ScanMeminfo(lines: seq<string>, extract: string -> Result<u64, ReadError>)
    returns (r: Result<MemoryMeasurments, ReadError>)
    ensures r == Meminfo(lines, extract)
  {
    var memTotal: u64 := 0;
    var memFree: u64 := 0;
    var memAvail: u64 := 0;
    var i := 0;
    while i < |lines|
      invariant 0 <= i <= |lines|
      invariant Meminfo(lines[..i], extract) == Ok(MemoryMeasurments(memTotal, memFree, memAvail))
    {
      var l := lines[i];
      assert lines[..i + 1][..i] == lines[..i];
      if Contains(l, "MemTotal:") {
        var v := extract(l);
        if v.Err? {
          MeminfoErrorSticks(lines, i + 1, extract);
          return Err(v.error);
        }
        memTotal := v.value;
      } else if Contains(l, "MemFree:") {
        var v := extract(l);
        if v.Err? {
          MeminfoErrorSticks(lines, i + 1, extract);
          return Err(v.error);
        }
        memFree := v.value;
      } else if Contains(l, "MemAvailable:") {
        var v := extract(l);
        if v.Err? {
          MeminfoErrorSticks(lines, i + 1, extract);
          return Err(v.error);
        }
        memAvail := v.value;
      }
      i := i + 1;
    }
    assert lines[..i] == lines;
    return Ok(MemoryMeasurments(memTotal, memFree, memAvail));
  }

  /** `memory_consumption_meas` over the file's lines. */
  method MemoryConsumptionMeas(lines: seq<string>) returns (r: Result<MemoryMeasurments, ReadError>)
    ensures r == Meminfo(lines, ExtractMemConsumption)
  {
    r := ScanMeminfo(lines, ExtractMemConsumption);
  }

  /** The `Display` text: total, free and available, one per line, each in kB. */
  function Display(m: MemoryMeasurments): string {
    "mem total: \t" + ToDecimal(m.memTotal as int) + " kB" + "\n" +
    "mem free: \t" + ToDecimal(m.memFree as int) + " kB" + "\n" +
    "mem avail: \t" + ToDecimal(m.memAvail as int) + " kB"
  }

  /** A decimal number never spans lines. */
  lemma NoNewlineInDecimal(prefix: string, n: nat)
    requires '\n' !in prefix
    ensures '\n' !in prefix + ToDecimal(n) + " kB"
  {
    var d := ToDecimal(n);
    assert forall k :: 0 <= k < |d| ==> d[k] != '\n';
    var s := prefix + d + " kB";
    forall k | 0 <= k < |s|
      ensures s[k] != '\n'
    {
      if k < |prefix| {
        assert s[k] == prefix[k];
      } else if k < |prefix| + |d| {
        assert s[k] == d[k - |prefix|];
      }
    }
  }

  /** The three lines of the text, joined by newlines. */
  lemma DisplayShape(m: MemoryMeasurments, d1: string, d2: string, d3: string)
    requires d1 == ToDecimal(m.memTotal as int) && d2 == ToDecimal(m.memFree as int) && d3 == ToDecimal(m.memAvail as int)
    ensures Display(m) == ("mem total: \t" + d1 + " kB") + "\n" + (("mem free: \t" + d2 + " kB") + "\n" + ("mem avail: \t" + d3 + " kB"))
  {
  }

  /** The text has exactly three lines: total, free and available, in that order, each ending in " kB". */
  lemma DisplayLines(m: MemoryMeasurments)
    ensures SplitOn(Display(m), '\n') == [
      "mem total: \t" + ToDecimal(m.memTotal as int) + " kB",
      "mem free: \t" + ToDecimal(m.memFree as int) + " kB",
      "mem avail: \t" + ToDecimal(m.memAvail as int) + " kB"]
  {
    var a := "mem total: \t" + ToDecimal(m.memTotal as int) + " kB";
    var b := "mem free: \t" + ToDecimal(m.memFree as int) + " kB";
    var c := "mem avail: \t" + ToDecimal(m.memAvail as int) + " kB";
    DisplayShape(m, ToDecimal(m.memTotal as int), ToDecimal(m.memFree as int), ToDecimal(m.memAvail as int));
    NoNewlineInDecimal("mem total: \t", m.memTotal as int);
    NoNewlineInDecimal("mem free: \t", m.memFree as int);
    NoNewlineInDecimal("mem avail: \t", m.memAvail as int);
    SplitOnAround(a, b + "\n" + c, '\n');
    SplitOnAround(b, c, '\n');
    SplitOnWithout(a, '\n');
    SplitOnWithout(b, '\n');
    SplitOnWithout(c, '\n');
  }
}
