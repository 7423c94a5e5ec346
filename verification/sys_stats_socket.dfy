/**
 * `/proc/net/sockstat`: lines such as `TCP: inuse 8 orphan 0 tw 0 alloc 8
 * mem 4`. The reader keeps three counters, each set by the third token of
 * the latest line naming its protocol.
 */
module SysStatsSocket {
  import opened Wrappers
  import opened Text
  import opened Decimal
  import opened Fields
  import opened Scans

  /** Sockets in use per protocol. `Default` is all zero. */
  datatype SocketStatMeasurements = SocketStatMeasurements(
    tcpInuse: usize,
    udpInuse: usize,
    udpLiteInuse: usize)

  const DefaultSocketStatMeasurements := SocketStatMeasurements(0, 0, 0)

  predicate IsTcpLine(line: string) {
    Contains(line, "TCP: inuse")
  }

  predicate IsUdpLine(line: string) {
    Contains(line, "UDP: inuse")
  }

  predicate IsUdpLiteLine(line: string) {
    Contains(line, "UDPLITE: inuse")
  }

  /** A line that at least one of the three checks reads. */
  predicate IsSockstatLine(line: string) {
    IsTcpLine(line) || IsUdpLine(line) || IsUdpLiteLine(line)
  }

  /** Each check fires exactly when its header occurs at some position of the line. */
  lemma SockstatLineAt(line: string)
    ensures IsTcpLine(line) <==> exists i :: OccursAt(line, "TCP: inuse", i)
    ensures IsUdpLine(line) <==> exists i :: OccursAt(line, "UDP: inuse", i)
    ensures IsUdpLiteLine(line) <==> exists i :: OccursAt(line, "UDPLITE: inuse", i)
  {
    ContainsAt(line, "TCP: inuse");
    ContainsAt(line, "UDP: inuse");
    ContainsAt(line, "UDPLITE: inuse");
  }

  /** `extract_socket_stat`: the third token, parsed as a `usize`. */
  function ExtractSocketStat(line: string): (r: Result<usize, ReadError>)
    ensures var ts := Tokens(line);
      r.Ok? <==> |ts| >= 3 && IsU64Text(ts[2])
    ensures var ts := Tokens(line);
      r.Ok? ==> r.value as int == DecimalValue(Unsigned(ts[2]))
    ensures |Tokens(line)| < 3 ==> r == Err(IndexOutOfBounds(2, |Tokens(line)|))
  {
    ParseField(Tokens(line), 2)
  }

  /** A sockstat line written out with single spaces reads back as its count. */
  lemma SocketLineRoundTrip(proto: string, tag: string, n: usize, rest: seq<string>)
    requires IsToken(proto) && IsToken(tag)
    requires forall k :: 0 <= k < |rest| ==> IsToken(rest[k])
    ensures ExtractSocketStat(Join([proto, tag, ToDecimal(n as int)] + rest, ' ')) == Ok(n)
  {
    var ts := [proto, tag] + Decimals([n]) + rest;
    assert [proto, tag, ToDecimal(n as int)] + rest == ts;
    TokensOfJoin(ts);
    ParseFieldOfDecimal(ts, 2, n);
  }

  /** Runs of spaces between fields do not move them. */
  lemma SocketSpacingIrrelevant(a: string, b: string)
    ensures ExtractSocketStat(a + "  " + b) == ExtractSocketStat(a + " " + b)
  {
    RunsOfSpacesCollapse(a, b);
  }

  /**
   * One line of the loop: the three independent `if`s, in order, each
   * overwriting its counter or stopping the read with the extractor's error.
   */
  function SockstatStep(s: SocketStatMeasurements, line: string, extract: string -> Result<usize, ReadError>)
    : Result<SocketStatMeasurements, ReadError>
  {
    var s1 :- if IsTcpLine(line) then (var v :- extract(line); Ok(s.(tcpInuse := v))) else Ok(s);
    var s2 :- if IsUdpLine(line) then (var v :- extract(line); Ok(s1.(udpInuse := v))) else Ok(s1);
    if IsUdpLiteLine(line) then (var v :- extract(line); Ok(s2.(udpLiteInuse := v))) else Ok(s2)
  }

  /** The counters after reading `lines` from the start, or the error that stopped the read. */
  function Sockstat(lines: seq<string>, extract: string -> Result<usize, ReadError>)
    : Result<SocketStatMeasurements, ReadError>
    decreases |lines|
  {
    if lines == [] then Ok(DefaultSocketStatMeasurements)
    else
      var s :- Sockstat(lines[..|lines| - 1], extract);
      SockstatStep(s, lines[|lines| - 1], extract)
  }

  /** Once the read has stopped, later lines do not matter. */
  lemma {:induction false} SockstatErrorSticks(lines: seq<string>, i: nat, extract: string -> Result<usize, ReadError>)
    requires i <= |lines| && Sockstat(lines[..i], extract).Err?
    ensures Sockstat(lines, extract) == Sockstat(lines[..i], extract)
    decreases |lines|
  {
    if i < |lines| {
      var init := lines[..|lines| - 1];
      assert init[..i] == lines[..i];
      SockstatErrorSticks(init, i, extract);
    } else {
      assert lines[..i] == lines;
    }
  }

  /**
   * The read succeeds exactly when every line naming one of the three
   * protocols has a readable count.
   */
  lemma {:induction false} SockstatOkIff(lines: seq<string>, extract: string -> Result<usize, ReadError>)
    ensures Sockstat(lines, extract).Ok? <==>
      forall k :: 0 <= k < |lines| && IsSockstatLine(lines[k]) ==> extract(lines[k]).Ok?
    decreases |lines|
  {
    if lines != [] {
      var init := lines[..|lines| - 1];
      SockstatOkIff(init, extract);
      assert forall k :: 0 <= k < |init| ==> init[k] == lines[k];
    }
  }

  /**
   * Last match wins, per counter: each counter holds the count of the last
   * line naming its protocol, or 0 when no line does.
   */
  lemma {:induction false} SockstatLastWins(lines: seq<string>, extract: string -> Result<usize, ReadError>)
    requires Sockstat(lines, extract).Ok?
    ensures var s := Sockstat(lines, extract).value;
      (match LastHit(lines, IsTcpLine) case None => s.tcpInuse == 0 case Some(l) => extract(l) == Ok(s.tcpInuse)) &&
      (match LastHit(lines, IsUdpLine) case None => s.udpInuse == 0 case Some(l) => extract(l) == Ok(s.udpInuse)) &&
      (match LastHit(lines, IsUdpLiteLine) case None => s.udpLiteInuse == 0 case Some(l) => extract(l) == Ok(s.udpLiteInuse))
    decreases |lines|
  {
    if lines != [] {
      SockstatLastWins(lines[..|lines| - 1], extract);
    }
  }

  /**
   * The loop of `net_socket_read`: three counters starting at 0, updated
   * line by line; the first unreadable count ends the read.
   */
  method ScanSockstat(lines: seq<string>, extract: string -> Result<usize, ReadError>)
    returns (r: Result<SocketStatMeasurements, ReadError>)
    ensures r == Sockstat(lines, extract)
  {
    var tcpInuse: usize := 0;
    var udpInuse: usize := 0;
    var udpLiteInuse: usize := 0;
    var i := 0;
    while i < |lines|
      invariant 0 <= i <= |lines|
      invariant Sockstat(lines[..i], extract) == Ok(SocketStatMeasurements(tcpInuse, udpInuse, udpLiteInuse))
    {
      var l := lines[i];
      assert lines[..i + 1][..i] == lines[..i];
      if IsTcpLine(l) {
        var v := extract(l);
        if v.Err? {
          SockstatErrorSticks(lines, i + 1, extract);
          return Err(v.error);
        }
        tcpInuse := v.value;
      }
      if IsUdpLine(l) {
        var v := extract(l);
        if v.Err? {
          SockstatErrorSticks(lines, i + 1, extract);
          return Err(v.error);
        }
        udpInuse := v.value;
      }
      if IsUdpLiteLine(l) {
        var v := extract(l);
        if v.Err? {
          SockstatErrorSticks(lines, i + 1, extract);
          return Err(v.error);
        }
        udpLiteInuse := v.value;
      }
      i := i + 1;
    }
    assert lines[..i] == lines;
    return Ok(SocketStatMeasurements(tcpInuse, udpInuse, udpLiteInuse));
  }

  /** `net_socket_read` over the file's lines. */
  method NetSocketRead(lines: seq<string>) returns (r: Result<SocketStatMeasurements, ReadError>)
    ensures r == Sockstat(lines, ExtractSocketStat)
  {
    r := ScanSockstat(lines, ExtractSocketStat);
  }
}
