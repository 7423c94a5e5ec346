/**
 * The first `/proc/net/sockstat` reader (`src/socket.rs`): the same loop as
 * `SysStatsSocket`, but the count is the third raw piece of a split on
 * single spaces, empty pieces kept.
 */
module LegacySocket {
  import opened Wrappers
  import opened Text
  import opened Decimal
  import opened Fields
  import SysStatsSocket

  /** `extract_socket_stat` over the raw pieces of the line. */
  function ExtractSocketStat(line: string): (r: Result<usize, ReadError>)
    ensures var raw := SplitOn(line, ' ');
      r.Ok? <==> |raw| >= 3 && IsU64Text(raw[2])
    ensures var raw := SplitOn(line, ' ');
      r.Ok? ==> r.value as int == DecimalValue(Unsigned(raw[2]))
  {
    ParseField(SplitOn(line, ' '), 2)
  }

  /**
   * Two spaces after the second word put an empty piece where the count
   * should be; the line of the newer reader's unit test,
   * `TCP: inuse   8 ...`, is one such line.
   */
  lemma DoubleSpaceBeforeCountFails(proto: string, tag: string, rest: string)
    requires ' ' !in proto && ' ' !in tag
    ensures ExtractSocketStat(proto + " " + tag + "  " + rest) == Err(ParseFailed(Empty))
    ensures SysStatsSocket.ExtractSocketStat(proto + " " + tag + "  " + rest)
         == SysStatsSocket.ExtractSocketStat(proto + " " + tag + " " + rest)
  {
    var head := proto + " " + tag;
    assert proto + " " + tag + "  " + rest == head + [' '] + (" " + rest);
    assert head == proto + [' '] + tag;
    assert " " + rest == "" + [' '] + rest;
    SplitOnAround(head, " " + rest, ' ');
    SplitOnAround(proto, tag, ' ');
    SplitOnAround("", rest, ' ');
    SplitOnWithout(proto, ' ');
    SplitOnWithout(tag, ' ');
    SplitOnWithout("", ' ');
    var raw := SplitOn(proto + " " + tag + "  " + rest, ' ');
    assert raw[..3] == [proto, tag, ""];
    SysStatsSocket.SocketSpacingIrrelevant(head, rest);
  }

  /** On a line without doubled, leading or trailing spaces both readers agree. */
  lemma AgreesOnSingleSpaced(line: string)
    requires forall k :: 0 <= k < |SplitOn(line, ' ')| ==> SplitOn(line, ' ')[k] != ""
    ensures ExtractSocketStat(line) == SysStatsSocket.ExtractSocketStat(line)
  {
    TokensOfSingleSpaced(line);
  }

  /** `net_socket_read`: the same three-counter loop, with this extractor. */
  method NetSocketRead(lines: seq<string>) returns (r: Result<SysStatsSocket.SocketStatMeasurements, ReadError>)
    ensures r == SysStatsSocket.Sockstat(lines, ExtractSocketStat)
  {
    r := SysStatsSocket.ScanSockstat(lines, ExtractSocketStat);
  }
}
