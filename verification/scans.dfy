/**
 * The line loops of the `/proc` readers that keep one record per selected
 * line: `while let Some(l) = lines.next_line().await? { if keep(l) {
 * out.push(extract(l)?) } }`. The file is given as its sequence of lines.
 */
module Scans {
  import opened Wrappers

  /** The lines the filter keeps, in file order. */
  function Select(lines: seq<string>, keep: string -> bool): (r: seq<string>)
    ensures |r| <= |lines|
    ensures forall k :: 0 <= k < |r| ==> keep(r[k]) && r[k] in lines
    decreases |lines|
  {
    if lines == [] then []
    else
      var last := lines[|lines| - 1];
      Select(lines[..|lines| - 1], keep) + (if keep(last) then [last] else [])
  }

  /** Every selected line was read, and `out` holds their records in order. */
  predicate AllExtracted<T(==), E(==)>(sel: seq<string>, extract: string -> Result<T, E>, out: seq<T>) {
    |out| == |sel| && forall k :: 0 <= k < |sel| ==> extract(sel[k]) == Ok(out[k])
  }

  /** Line `j` of `sel` is the first one whose record could not be read, and `e` is why. */
  predicate FailsFirstAt<T(==), E(==)>(sel: seq<string>, extract: string -> Result<T, E>, j: int, e: E) {
    0 <= j < |sel| && extract(sel[j]) == Err(e) &&
    forall k :: 0 <= k < j ==> extract(sel[k]).Ok?
  }

  lemma {:induction false} SelectAppend(a: seq<string>, b: seq<string>, keep: string -> bool)
    ensures Select(a + b, keep) == Select(a, keep) + Select(b, keep)
    decreases |b|
  {
    if b == [] {
      assert a + b == a;
    } else {
      var b' := b[..|b| - 1];
      assert (a + b)[..|a + b| - 1] == a + b';
      SelectAppend(a, b', keep);
    }
  }

  /**
   * The push loop: one record per kept line, in file order, or the first
   * error, which abandons the records read so far.
   */
  method CollectSelected<T(==), E(==)>(lines: seq<string>, keep: string -> bool, extract: string -> Result<T, E>)
    returns (r: Result<seq<T>, E>)
    ensures r.Ok? ==> AllExtracted(Select(lines, keep), extract, r.value)
    ensures r.Err? ==> exists j :: FailsFirstAt(Select(lines, keep), extract, j, r.error)
  {
    var out: seq<T> := [];
    var i := 0;
    while i < |lines|
      invariant 0 <= i <= |lines|
      invariant AllExtracted(Select(lines[..i], keep), extract, out)
    {
      var l := lines[i];
      assert lines[..i + 1][..i] == lines[..i];
      if keep(l) {
        var got := extract(l);
        if got.Err? {
          var before := Select(lines[..i], keep);
          assert lines == lines[..i + 1] + lines[i + 1..];
          SelectAppend(lines[..i + 1], lines[i + 1..], keep);
          assert FailsFirstAt(Select(lines, keep), extract, |before|, got.error);
          return Err(got.error);
        }
        out := out + [got.value];
      }
      i := i + 1;
    }
    assert lines[..i] == lines;
    return Ok(out);
  }

  /** The last line that `hit` picks out, if any: the one a "last match wins" scan keeps. */
  function LastHit(lines: seq<string>, hit: string -> bool): (r: Option<string>)
    ensures r.Some? ==> hit(r.value) && r.value in lines
    ensures r.None? <==> forall k :: 0 <= k < |lines| ==> !hit(lines[k])
    decreases |lines|
  {
    if lines == [] then None
    else if hit(lines[|lines| - 1]) then Some(lines[|lines| - 1])
    else
      var r := LastHit(lines[..|lines| - 1], hit);
      assert forall k :: 0 <= k < |lines| - 1 ==> lines[..|lines| - 1][k] == lines[k];
      r
  }

  /** The line `LastHit` returns is the last one `hit` picks out: no line after it is picked out. */
  lemma {:induction false} LastHitIsLast(lines: seq<string>, hit: string -> bool)
    ensures LastHit(lines, hit).Some? ==>
      exists j :: 0 <= j < |lines| && lines[j] == LastHit(lines, hit).value &&
        forall k :: j < k < |lines| ==> !hit(lines[k])
    decreases |lines|
  {
    if lines == [] {
      return;
    }
    var n := |lines| - 1;
    if hit(lines[n]) {
      assert lines[n] == LastHit(lines, hit).value;
      return;
    }
    var init := lines[..n];
    LastHitIsLast(init, hit);
    if LastHit(init, hit).Some? {
      var j :| 0 <= j < |init| && init[j] == LastHit(init, hit).value && forall k :: j < k < |init| ==> !hit(init[k]);
      assert lines[j] == init[j];
      forall k | j < k < |lines|
        ensures !hit(lines[k])
      {
        if k < n {
          assert lines[k] == init[k];
        }
      }
    }
  }
}
