/**
 * The terminal front end: a loop that redraws the dashboard from the
 * measurement channel and polls the keyboard until `q` is pressed, between
 * switching the terminal into raw mode and the alternate screen and back.
 *
 * Terminal and keyboard calls are not performed here: each is an entry of a
 * trace, and what each returns comes from an `Env` script given up front,
 * one `Tick` per pass of the loop.
 */
module UiHandler {
  import opened Wrappers
  import opened UiMeasurements

  datatype KeyEventKind = Press | Repeat | Release
  datatype KeyCode = Char(c: char) | NonCharKey
  datatype Event = Key(kind: KeyEventKind, code: KeyCode) | NonKeyEvent

  /** The terminal and keyboard calls the front end makes, in the order of the trace. */
  datatype TermCall = EnableRaw | EnterAlt | NewTerminal | Draw | Poll | Read | DisableRaw | LeaveAlt

  /** An `io::Error`, identified by the call that raised it. */
  datatype IoError = IoError(call: TermCall)

  /**
   * What the keyboard does during one 50 ms poll: nothing, an event that
   * `read` then returns, or a failure of `poll` or of `read`.
   */
  datatype PollInput = Quiet | Arrived(ev: Event) | PollFailed | ReadFailed

  /** `handle_events`: `Ok(true)` exactly for a press of `q`; poll and read errors pass through. */
  function HandleEvents(p: PollInput): (r: Result<bool, IoError>)
    ensures r == Ok(true) <==> p.Arrived? && p.ev.Key? && p.ev.kind == Press && p.ev.code == Char('q')
    ensures r.Err? <==> p.PollFailed? || p.ReadFailed?
    ensures p.PollFailed? ==> r == Err(IoError(Poll))
    ensures p.ReadFailed? ==> r == Err(IoError(Read))
  {
    match p
    case Quiet => Ok(false)
    case PollFailed => Err(IoError(Poll))
    case ReadFailed => Err(IoError(Read))
    case Arrived(ev) =>
      if ev.Key? then Ok(ev.kind == Press && ev.code == Char('q')) else Ok(false)
  }

  /** The calls `handle_events` makes: `read` only after `poll` reported an event. */
  function EventCalls(p: PollInput): seq<TermCall> {
    if p.Arrived? || p.ReadFailed? then [Poll, Read] else [Poll]
  }

  /** `poll` comes first, `read` follows exactly when there is an event to read, and nothing else is called. */
  lemma EventCallsShape(p: PollInput)
    ensures 1 <= |EventCalls(p)| <= 2 && EventCalls(p)[0] == Poll
    ensures Read in EventCalls(p) <==> p.Arrived? || p.ReadFailed?
    ensures Draw !in EventCalls(p) && DisableRaw !in EventCalls(p) && LeaveAlt !in EventCalls(p)
  {
  }

  /** The receiving end of the bounded channel the pollers send their snapshots on. */
  class Receiver {
    /** Sent and not yet received, oldest first. */
    var pending: seq<Measurement>

    constructor (queued: seq<Measurement>)
      ensures pending == queued
    {
      pending := queued;
    }

    /** A poller's send: the snapshots join the back of the queue. */
    method Deliver(ms: seq<Measurement>)
      modifies this
      ensures pending == old(pending) + ms
    {
      pending := pending + ms;
    }

    /** `try_recv`: the oldest pending snapshot, or nothing without waiting. */
    method TryRecv() returns (r: Option<Measurement>)
      modifies this
      ensures old(pending) == [] ==> r == None && pending == []
      ensures old(pending) != [] ==> r == Some(old(pending)[0]) && pending == old(pending)[1..]
    {
      if pending == [] {
        r := None;
      } else {
        r := Some(pending[0]);
        pending := pending[1..];
      }
    }
  }

  /**
   * `draw_ui`: takes at most one snapshot; with one, files it into its slot
   * and renders all five slots (the result is what the panels show); with
   * none, changes nothing and renders nothing.
   */
  method DrawUi(ui: UIMeasurements, rx: Receiver) returns (rendered: Option<Slots>)
    modifies ui, rx
    ensures old(rx.pending) == [] ==>
      rendered == None && ui.Contents() == old(ui.Contents()) && rx.pending == []
    ensures old(rx.pending) != [] ==>
      ui.Contents() == Apply(old(ui.Contents()), old(rx.pending)[0]) &&
      rx.pending == old(rx.pending)[1..] &&
      rendered == Some(ui.Contents())
  {
    var res := rx.TryRecv();
    if res.Some? {
      ui.Dispatch(res.value);
      rendered := Some(ui.Contents());
    } else {
      rendered := None;
    }
  }

  /** One pass of the loop: what the pollers send first, whether `draw` succeeds, what the keyboard does. */
  datatype Tick = Tick(arrivals: seq<Measurement>, drawOk: bool, poll: PollInput)

  /** What the terminal calls return, and the passes of the loop there is time for. */
  datatype Env = Env(
    enableRawOk: bool,
    enterAltOk: bool,
    newTerminalOk: bool,
    ticks: seq<Tick>,
    disableRawOk: bool,
    leaveAltOk: bool)

  /** How `create_ui` ended: it returned, or the script ran out with the loop still going. */
  datatype Outcome = Returned(result: Result<(), IoError>) | StillRunning

  predicate SetupOk(env: Env) {
    env.enableRawOk && env.enterAltOk && env.newTerminalOk
  }

  /**
   * What a pass hands back to the loop: the draw's error, or else
   * `handle_events`' result, whether `q` was pressed or the keyboard's error.
   */
  function PassResult(t: Tick): Result<bool, IoError> {
    if t.drawOk then HandleEvents(t.poll) else Err(IoError(Draw))
  }

  /** What each keyboard and draw outcome makes of a pass. */
  lemma PassOutcomes(t: Tick)
    ensures PassResult(t) == Ok(true) <==> t.drawOk && t.poll == Arrived(Key(Press, Char('q')))
    ensures PassResult(t).Err? <==> !t.drawOk || t.poll.PollFailed? || t.poll.ReadFailed?
    ensures !t.drawOk ==> PassResult(t) == Err(IoError(Draw))
    ensures t.drawOk && t.poll.PollFailed? ==> PassResult(t) == Err(IoError(Poll))
    ensures t.drawOk && t.poll.ReadFailed? ==> PassResult(t) == Err(IoError(Read))
  {
  }

  /** A pass after which the loop goes on. */
  predicate Continues(t: Tick) {
    PassResult(t) == Ok(false)
  }

  /** A pass after which the loop stops to restore the terminal. */
  predicate Quits(t: Tick) {
    PassResult(t) == Ok(true)
  }

  /** Each of the first `n` passes lets the loop go on. */
  predicate AllContinue(ts: seq<Tick>, n: nat)
    requires n <= |ts|
  {
    forall j :: 0 <= j < n ==> Continues(ts[j])
  }

  /** Pass `i` is the first that does not continue, and it quits. */
  predicate QuitsAt(ts: seq<Tick>, i: int) {
    0 <= i < |ts| && AllContinue(ts, i) && Quits(ts[i])
  }

  /** Pass `i` is the first that does not continue, and it fails. */
  predicate FailsAt(ts: seq<Tick>, i: int) {
    0 <= i < |ts| && AllContinue(ts, i) && PassResult(ts[i]).Err?
  }

  /** Some pass quits, after passes that all continued. */
  ghost predicate SomeQuit(ts: seq<Tick>) {
    exists i :: QuitsAt(ts, i)
  }

  /** How the draw-and-poll loop ended. */
  datatype LoopEnd = Quit | Failed(error: IoError) | OutOfTicks

  /**
   * The `while !should_quit` loop as a recursion over the passes from pass
   * `i` on: how it ends, and how many passes have run by then.
   */
  function LoopFrom(ts: seq<Tick>, i: nat): (r: (LoopEnd, nat))
    requires i <= |ts|
    ensures i <= r.1 <= |ts|
    decreases |ts| - i
  {
    if i == |ts| then (OutOfTicks, i)
    else
      var r := PassResult(ts[i]);
      if r.Err? then (Failed(r.error), i + 1)
      else if r.value then (Quit, i + 1)
      else LoopFrom(ts, i + 1)
  }

  /** The loop over the whole script, from the first pass. */
  function LoopRun(ts: seq<Tick>): (r: (LoopEnd, nat))
    ensures r.1 <= |ts|
  {
    LoopFrom(ts, 0)
  }

  /**
   * From pass `i` on, the loop stops at the first pass that does not
   * continue, with that pass's verdict, and runs out only when every pass
   * continues.
   */
  lemma {:induction false} LoopFromStops(ts: seq<Tick>, i: nat)
    requires i <= |ts|
    ensures var (stop, n) := LoopFrom(ts, i); i <= n <= |ts| && (stop.OutOfTicks? ==> n == |ts|)
    ensures var (stop, n) := LoopFrom(ts, i);
      forall k :: i <= k < n && (stop.OutOfTicks? || k < n - 1) ==> Continues(ts[k])
    ensures var (stop, n) := LoopFrom(ts, i); stop.Quit? ==> i < n && Quits(ts[n - 1])
    ensures var (stop, n) := LoopFrom(ts, i);
      stop.Failed? ==> i < n && PassResult(ts[n - 1]) == Err(stop.error)
    decreases |ts| - i
  {
    if i < |ts| && Continues(ts[i]) {
      LoopFromStops(ts, i + 1);
    }
  }

  /**
   * What the loop's verdict means: it runs out of passes exactly when every
   * pass continues; otherwise its last pass is the first that does not
   * continue, which quits or fails with the reported error; and it quits
   * exactly when some pass quits after passes that all continued.
   */
  lemma LoopRunStops(ts: seq<Tick>)
    ensures var (stop, n) := LoopRun(ts); n <= |ts| && (stop.OutOfTicks? ==> n == |ts|)
    ensures LoopRun(ts).0.OutOfTicks? <==> AllContinue(ts, |ts|)
    ensures var (stop, n) := LoopRun(ts); stop.Quit? ==> n >= 1 && QuitsAt(ts, n - 1)
    ensures var (stop, n) := LoopRun(ts);
      stop.Failed? ==> n >= 1 && FailsAt(ts, n - 1) && PassResult(ts[n - 1]) == Err(stop.error)
    ensures LoopRun(ts).0.Quit? <==> SomeQuit(ts)
  {
    LoopFromStops(ts, 0);
    var (stop, n) := LoopRun(ts);
    if stop.Quit? {
      assert QuitsAt(ts, n - 1);
    } else if stop.Failed? {
      assert !Continues(ts[n - 1]);
      assert forall k :: 0 <= k < |ts| && AllContinue(ts, k) ==> k < n;
    } else {
      assert AllContinue(ts, |ts|);
    }
  }

  /** Everything the pollers send during the first `n` passes, in order. */
  function Arrivals(ts: seq<Tick>, n: nat): seq<Measurement>
    requires n <= |ts|
  {
    if n == 0 then [] else Arrivals(ts, n - 1) + ts[n - 1].arrivals
  }
  /** The calls of one pass: the draw, then, only when it succeeded, the keyboard's. */
  function PassCalls(t: Tick): seq<TermCall> {
    [Draw] + (if t.drawOk then EventCalls(t.poll) else [])
  }

  /** A pass starts with the draw, polls exactly when the draw succeeded, and never restores the terminal. */
  lemma PassCallsShape(t: Tick)
    ensures |PassCalls(t)| >= 1 && PassCalls(t)[0] == Draw
    ensures DisableRaw !in PassCalls(t) && LeaveAlt !in PassCalls(t)
    ensures t.drawOk <==> Poll in PassCalls(t)
  {
    if t.drawOk {
      EventCallsShape(t.poll);
      assert PassCalls(t)[1] == Poll;
    }
  }

  /** The trace of the first `n` passes of the loop, pass after pass. */
  function Passes(ts: seq<Tick>, n: nat): seq<TermCall>
    requires n <= |ts|
  {
    if n == 0 then [] else Passes(ts, n - 1) + PassCalls(ts[n - 1])
  }

  /** The loop never touches the terminal mode: no pass restores it. */
  lemma {:induction false} PassesNoRestore(ts: seq<Tick>, n: nat)
    requires n <= |ts|
    ensures DisableRaw !in Passes(ts, n) && LeaveAlt !in Passes(ts, n)
  {
    if n > 0 {
      PassesNoRestore(ts, n - 1);
      PassCallsShape(ts[n - 1]);
    }
  }

  /** The channel as the dashboard sees it: what it has taken off, and what is still queued. */
  datatype Channel = Channel(received: seq<Measurement>, pending: seq<Measurement>)

  /** `try_recv` seen from outside: the oldest queued snapshot, if any, moves to the taken ones. */
  function Pop(c: Channel): Channel {
    if c.pending == [] then c else Channel(c.received + [c.pending[0]], c.pending[1..])
  }

  /** A `try_recv` loses and duplicates nothing, and takes the oldest snapshot when there is one. */
  lemma PopConserves(c: Channel)
    ensures Pop(c).received + Pop(c).pending == c.received + c.pending
    ensures c.pending == [] ==> Pop(c) == c
    ensures c.pending != [] ==> Pop(c).received == c.received + [c.pending[0]]
  {
    if c.pending != [] {
      assert (c.received + [c.pending[0]]) + c.pending[1..] == c.received + c.pending;
    }
  }

  /**
   * The channel after the first `n` passes, starting from `queued`: in each
   * pass the pollers' sends join the queue, then the draw takes at most one
   * snapshot.
   */
  function Taken(queued: seq<Measurement>, ts: seq<Tick>, n: nat): Channel
    requires n <= |ts|
  {
    if n == 0 then Channel([], queued)
    else
      var c := Taken(queued, ts, n - 1);
      Pop(Channel(c.received, c.pending + ts[n - 1].arrivals))
  }

  lemma AppendAssoc<T>(a: seq<T>, b: seq<T>, c: seq<T>)
    ensures a + (b + c) == (a + b) + c
  {
  }

  /** Nothing sent is lost or duplicated, and no pass takes more than one snapshot. */
  lemma {:induction false} TakenConserves(queued: seq<Measurement>, ts: seq<Tick>, n: nat)
    requires n <= |ts|
    ensures Taken(queued, ts, n).received + Taken(queued, ts, n).pending == queued + Arrivals(ts, n)
    ensures |Taken(queued, ts, n).received| <= n
  {
    if n > 0 {
      var c := Taken(queued, ts, n - 1);
      var a := ts[n - 1].arrivals;
      TakenConserves(queued, ts, n - 1);
      AppendAssoc(c.received, c.pending, a);
      AppendAssoc(queued, Arrivals(ts, n - 1), a);
      PopConserves(Channel(c.received, c.pending + a));
    }
  }

  /** The set-up calls, in order. */
  const SetupCalls: seq<TermCall> := [EnableRaw, EnterAlt, NewTerminal]

  /** The restore calls as far as they get. */
  function RestoreCalls(env: Env): seq<TermCall> {
    if env.disableRawOk then [DisableRaw, LeaveAlt] else [DisableRaw]
  }

  /** The outcome once the restore has run: its own error first, else `result`. */
  function Restored(env: Env, result: Result<(), IoError>): Outcome {
    if !env.disableRawOk then Returned(Err(IoError(DisableRaw)))
    else if !env.leaveAltOk then Returned(Err(IoError(LeaveAlt)))
    else Returned(result)
  }

  /** What has been sent during the first passes is a prefix of what is sent during more of them. */
  lemma {:induction false} ArrivalsPrefix(ts: seq<Tick>, i: nat, n: nat)
    requires i <= n <= |ts|
    ensures Arrivals(ts, i) <= Arrivals(ts, n)
  {
    if i < n {
      ArrivalsPrefix(ts, i, n - 1);
    }
  }

  /** What the first passes took off the channel is a prefix of everything queued and sent. */
  lemma TakenPrefix(queued: seq<Measurement>, ts: seq<Tick>, n: nat)
    requires n <= |ts|
    ensures Taken(queued, ts, n).received <= queued + Arrivals(ts, |ts|)
  {
    ArrivalsPrefix(ts, n, |ts|);
    TakenConserves(queued, ts, n);
    var c := Taken(queued, ts, n);
    assert c.received <= queued + Arrivals(ts, n);
    assert queued + Arrivals(ts, n) <= queued + Arrivals(ts, |ts|);
  }

  /**
   * `terminal.draw(|frame| draw_ui(..))`: one call of `DrawUi`, with the
   * snapshot it takes, if any, appended to what has been received.
   * `draw_ui` runs before the draw's own success is known; a draw that fails
   * before calling it leaves the snapshot queued instead, which nothing can
   * observe, since `create_ui` then returns.
   */
  method DrawFrame(ui: UIMeasurements, rx: Receiver, received: seq<Measurement>)
    returns (rendered: Option<Slots>, received': seq<Measurement>)
    requires ui.Contents() == ApplyAll(DefaultSlots, received)
    modifies ui, rx
    ensures Channel(received', rx.pending) == Pop(Channel(received, old(rx.pending)))
    ensures ui.Contents() == ApplyAll(DefaultSlots, received')
    ensures rendered.Some? <==> old(rx.pending) != []
    ensures rendered.Some? ==> rendered.value == ui.Contents()
  {
    var before := rx.pending;
    rendered := DrawUi(ui, rx);
    received' := received;
    if before != [] {
      assert (received + [before[0]])[..|received|] == received;
      received' := received + [before[0]];
    }
  }

  /**
   * Pass `i` of the loop body: the pollers' sends arrive, the frame is
   * drawn, and, when the draw succeeded, the keyboard is polled. The trace,
   * the channel and the slots move on from the first `i` passes to the
   * first `i + 1`.
   */
  method DrawAndPoll(ui: UIMeasurements, rx: Receiver, ghost queued: seq<Measurement>, ticks: seq<Tick>, i: nat,
                     calls: seq<TermCall>, received: seq<Measurement>)
    returns (q: Result<bool, IoError>, n: nat, calls': seq<TermCall>, received': seq<Measurement>)
    requires i < |ticks|
    requires calls == Passes(ticks, i)
    requires Channel(received, rx.pending) == Taken(queued, ticks, i)
    requires ui.Contents() == ApplyAll(DefaultSlots, received)
    modifies ui, rx
    ensures n == i + 1 && q == PassResult(ticks[i])
    ensures calls' == Passes(ticks, n)
    ensures Channel(received', rx.pending) == Taken(queued, ticks, n)
    ensures ui.Contents() == ApplyAll(DefaultSlots, received')
  {
    n := i + 1;
    var t := ticks[i];
    rx.Deliver(t.arrivals);
    calls' := calls + [Draw];
    var rendered;
    rendered, received' := DrawFrame(ui, rx, received);
    if !t.drawOk {
      return Err(IoError(Draw)), n, calls', received';
    }
    AppendAssoc(calls, [Draw], EventCalls(t.poll));
    calls' := calls' + EventCalls(t.poll);
    q := HandleEvents(t.poll);
  }

  /**
   * A whole pass: `DrawAndPoll`, then `should_quit` is set from its result,
   * or `?` leaves the loop with the error. `n = i + 1` passes have run, and
   * the loop's verdict is the one `LoopFrom` gives from pass `i` on.
   */
  method RunPass(ui: UIMeasurements, rx: Receiver, ghost queued: seq<Measurement>, ticks: seq<Tick>, i: nat,
                 calls: seq<TermCall>, received: seq<Measurement>)
    returns (stop: LoopEnd, n: nat, calls': seq<TermCall>, received': seq<Measurement>)
    requires i < |ticks| && LoopFrom(ticks, i) == LoopRun(ticks)
    requires calls == Passes(ticks, i)
    requires Channel(received, rx.pending) == Taken(queued, ticks, i)
    requires ui.Contents() == ApplyAll(DefaultSlots, received)
    modifies ui, rx
    ensures n == i + 1 && n <= |ticks|
    ensures stop.OutOfTicks? ==> LoopFrom(ticks, n) == LoopRun(ticks)
    ensures !stop.OutOfTicks? ==> (stop, n) == LoopRun(ticks)
    ensures calls' == Passes(ticks, n)
    ensures Channel(received', rx.pending) == Taken(queued, ticks, n)
    ensures ui.Contents() == ApplyAll(DefaultSlots, received')
  {
    var q;
    q, n, calls', received' := DrawAndPoll(ui, rx, queued, ticks, i, calls, received);
    stop := if q.Err? then Failed(q.error) else if q.value then Quit else OutOfTicks;
  }

  /**
   * The `while !should_quit` loop of `create_ui`: draw, then poll, until a
   * `q` press, or until a draw or the keyboard fails. It ends as `LoopRun`
   * says, after `n` passes; the trace is theirs, the channel is as they
   * leave it, and the slots hold what was taken off it.
   */
  method DrawUntilQuit(rx: Receiver, ticks: seq<Tick>)
    returns (stop: LoopEnd, n: nat, calls: seq<TermCall>, received: seq<Measurement>, state: Slots)
    modifies rx
    ensures n <= |ticks| && (stop, n) == LoopRun(ticks)
    ensures calls == Passes(ticks, n)
    ensures Channel(received, rx.pending) == Taken(old(rx.pending), ticks, n)
    ensures state == ApplyAll(DefaultSlots, received)
    ensures received <= old(rx.pending) + Arrivals(ticks, |ticks|)
  {
    ghost var queued := rx.pending;
    received := [];
    calls := [];
    var ui := new UIMeasurements();
    // `OutOfTicks` while the loop is still running
    stop := OutOfTicks;
    n := 0;
    while stop.OutOfTicks? && n < |ticks|
      invariant n <= |ticks|
      invariant stop.OutOfTicks? ==> LoopFrom(ticks, n) == LoopRun(ticks)
      invariant !stop.OutOfTicks? ==> (stop, n) == LoopRun(ticks)
      invariant calls == Passes(ticks, n)
      invariant Channel(received, rx.pending) == Taken(queued, ticks, n)
      invariant ui.Contents() == ApplyAll(DefaultSlots, received)
      decreases |ticks| - n
    {
      stop, n, calls, received := RunPass(ui, rx, queued, ticks, n, calls, received);
    }
    state := ui.Contents();
    TakenPrefix(queued, ticks, n);
  }

  /** The outcome and trace when a set-up call fails: each runs only when the one before it succeeded. */
  function SetupFailure(env: Env): (Outcome, seq<TermCall>)
    requires !SetupOk(env)
  {
    if !env.enableRawOk then (Returned(Err(IoError(EnableRaw))), [EnableRaw])
    else if !env.enterAltOk then (Returned(Err(IoError(EnterAlt))), [EnableRaw, EnterAlt])
    else (Returned(Err(IoError(NewTerminal))), SetupCalls)
  }

  /**
   * `create_ui` as a function of the script: the outcome, the number of
   * passes of the loop and the trace of calls. After the set-up the loop
   * runs as `LoopRun` says; a quit is followed by the restore, while an
   * error of a pass is returned at once.
   */
  function CreateUiRun(env: Env): (Outcome, nat, seq<TermCall>) {
    if !SetupOk(env) then (SetupFailure(env).0, 0, SetupFailure(env).1)
    else
      var (stop, n) := LoopRun(env.ticks);
      var calls := SetupCalls + Passes(env.ticks, n);
      match stop
      case OutOfTicks => (StillRunning, n, calls)
      case Failed(e) => (Returned(Err(e)), n, calls)
      case Quit => (Restored(env, Ok(())), n, calls + RestoreCalls(env))
  }

  /**
   * `create_ui` with the restore on every way out of the loop: after a
   * failing pass too, whose error is returned only when the restore
   * succeeds.
   */
  function CreateUiRestoringRun(env: Env): (Outcome, nat, seq<TermCall>) {
    if !SetupOk(env) then (SetupFailure(env).0, 0, SetupFailure(env).1)
    else
      var (stop, n) := LoopRun(env.ticks);
      var calls := SetupCalls + Passes(env.ticks, n);
      match stop
      case OutOfTicks => (StillRunning, n, calls)
      case Failed(e) => (Restored(env, Err(e)), n, calls + RestoreCalls(env))
      case Quit => (Restored(env, Ok(())), n, calls + RestoreCalls(env))
  }

  /**
   * The set-up: `enable_raw_mode`, `EnterAlternateScreen` and
   * `Terminal::new` run in that order, and the first that fails is returned
   * with nothing after it; both versions of `create_ui` agree until the
   * loop.
   */
  lemma SetupInOrder(env: Env)
    ensures var (outcome, passes, trace) := CreateUiRun(env); |trace| >= 1 && trace[0] == EnableRaw
    ensures !env.enableRawOk ==> CreateUiRun(env) == (Returned(Err(IoError(EnableRaw))), 0, [EnableRaw])
    ensures env.enableRawOk && !env.enterAltOk ==>
      CreateUiRun(env) == (Returned(Err(IoError(EnterAlt))), 0, [EnableRaw, EnterAlt])
    ensures env.enableRawOk && env.enterAltOk && !env.newTerminalOk ==>
      CreateUiRun(env) == (Returned(Err(IoError(NewTerminal))), 0, SetupCalls)
    ensures !SetupOk(env) ==> CreateUiRestoringRun(env) == CreateUiRun(env)
    ensures var (outcome, passes, trace) := CreateUiRestoringRun(env); |trace| >= 1 && trace[0] == EnableRaw
  {
  }

  /**
   * The loop of `create_ui`: it is still running only when every pass
   * continued; a failing pass returns its own error with the trace ending
   * in that pass; a quit is followed by the restore calls.
   */
  lemma CreateUiLoop(env: Env)
    requires SetupOk(env)
    ensures var (outcome, passes, trace) := CreateUiRun(env);
      !outcome.StillRunning? ==> passes >= 1 && (FailsAt(env.ticks, passes - 1) || QuitsAt(env.ticks, passes - 1))
    ensures var (outcome, passes, trace) := CreateUiRun(env);
      forall j :: FailsAt(env.ticks, j) || QuitsAt(env.ticks, j) ==> passes == j + 1
    ensures var (outcome, passes, trace) := CreateUiRun(env);
      passes <= |env.ticks| && (outcome.StillRunning? <==> AllContinue(env.ticks, |env.ticks|))
    ensures var (outcome, passes, trace) := CreateUiRun(env);
      outcome.StillRunning? ==> passes == |env.ticks| && trace == SetupCalls + Passes(env.ticks, |env.ticks|)
    ensures var (outcome, passes, trace) := CreateUiRun(env);
      passes >= 1 && FailsAt(env.ticks, passes - 1) ==>
        outcome == Returned(Err(PassResult(env.ticks[passes - 1]).error)) &&
        trace == SetupCalls + Passes(env.ticks, passes)
    ensures var (outcome, passes, trace) := CreateUiRun(env);
      passes >= 1 && QuitsAt(env.ticks, passes - 1) ==>
        outcome == Restored(env, Ok(())) &&
        trace == SetupCalls + Passes(env.ticks, passes) + RestoreCalls(env)
  {
    LoopRunStops(env.ticks);
  }

  /**
   * The restore of `create_ui`: raw mode is disabled exactly when the set-up
   * succeeded and some pass quit, and `Ok(())` comes back exactly when,
   * besides, both restore calls succeed.
   */
  lemma CreateUiRestore(env: Env)
    ensures DisableRaw in CreateUiRun(env).2 <==> SetupOk(env) && SomeQuit(env.ticks)
    ensures CreateUiRun(env).0 == Returned(Ok(())) <==>
      SetupOk(env) && SomeQuit(env.ticks) && env.disableRawOk && env.leaveAltOk
  {
    if SetupOk(env) {
      LoopRunStops(env.ticks);
      PassesNoRestore(env.ticks, LoopRun(env.ticks).1);
    }
  }

  /**
   * The loop of the restoring `create_ui`: as in `CreateUiLoop`, except
   * that a failing pass is followed by the restore too, and its error
   * comes back only after the restore's own.
   */
  lemma CreateUiRestoringLoop(env: Env)
    requires SetupOk(env)
    ensures var (outcome, passes, trace) := CreateUiRestoringRun(env);
      !outcome.StillRunning? ==> passes >= 1 && (FailsAt(env.ticks, passes - 1) || QuitsAt(env.ticks, passes - 1))
    ensures var (outcome, passes, trace) := CreateUiRestoringRun(env);
      forall j :: FailsAt(env.ticks, j) || QuitsAt(env.ticks, j) ==> passes == j + 1
    ensures var (outcome, passes, trace) := CreateUiRestoringRun(env);
      passes <= |env.ticks| && (outcome.StillRunning? <==> AllContinue(env.ticks, |env.ticks|))
    ensures var (outcome, passes, trace) := CreateUiRestoringRun(env);
      outcome.StillRunning? ==> passes == |env.ticks| && trace == SetupCalls + Passes(env.ticks, |env.ticks|)
    ensures var (outcome, passes, trace) := CreateUiRestoringRun(env);
      passes >= 1 && FailsAt(env.ticks, passes - 1) ==>
        outcome == Restored(env, Err(PassResult(env.ticks[passes - 1]).error)) &&
        trace == SetupCalls + Passes(env.ticks, passes) + RestoreCalls(env)
    ensures var (outcome, passes, trace) := CreateUiRestoringRun(env);
      passes >= 1 && QuitsAt(env.ticks, passes - 1) ==>
        outcome == Restored(env, Ok(())) &&
        trace == SetupCalls + Passes(env.ticks, passes) + RestoreCalls(env)
  {
    LoopRunStops(env.ticks);
  }

  /**
   * The restore of the restoring `create_ui`: once the terminal is set up,
   * every return goes through `disable_raw_mode`, and a failed set-up
   * returns an error without it; `Ok(())` still comes back exactly when
   * some pass quit and both restore calls succeed.
   */
  lemma CreateUiRestoringRestores(env: Env)
    ensures var (outcome, passes, trace) := CreateUiRestoringRun(env);
      !SetupOk(env) ==> outcome.Returned? && outcome.result.Err? && DisableRaw !in trace && LeaveAlt !in trace
    ensures var (outcome, passes, trace) := CreateUiRestoringRun(env);
      DisableRaw in trace <==> SetupOk(env) && outcome.Returned?
    ensures CreateUiRestoringRun(env).0 == Returned(Ok(())) <==>
      SetupOk(env) && SomeQuit(env.ticks) && env.disableRawOk && env.leaveAltOk
  {
    if SetupOk(env) {
      LoopRunStops(env.ticks);
      PassesNoRestore(env.ticks, LoopRun(env.ticks).1);
    }
  }

  /**
   * The restore is skipped by `create_ui` as written: when the first draw
   * fails, it returns the draw's error with raw mode still on, while the
   * restoring version disables raw mode and leaves the alternate screen
   * before returning that error.
   */
  lemma FirstDrawFailureSkipsRestore(env: Env)
    requires SetupOk(env) && |env.ticks| >= 1 && !env.ticks[0].drawOk
    ensures CreateUiRun(env) == (Returned(Err(IoError(Draw))), 1, SetupCalls + [Draw])
    ensures DisableRaw !in CreateUiRun(env).2
    ensures CreateUiRestoringRun(env) == (Restored(env, Err(IoError(Draw))), 1, SetupCalls + [Draw] + RestoreCalls(env))
    ensures DisableRaw in CreateUiRestoringRun(env).2
  {
    assert Passes(env.ticks, 1) == [Draw];
  }

  /**
   * `create_ui`, run against `env`. It sets the terminal up, then draws and
   * polls until `q` is pressed, then restores the terminal; any failing call
   * returns its error at once through `?`. The outcome, the number of
   * passes and the trace of calls are `CreateUiRun`'s; the snapshots the
   * dashboard took off the channel are those the passes took, and the slots
   * hold the last of each kind.
   */
  method CreateUi(rx: Receiver, env: Env)
    returns (outcome: Outcome, passes: nat, trace: seq<TermCall>, received: seq<Measurement>, state: Slots)
    modifies rx
    ensures passes <= |env.ticks| && (outcome, passes, trace) == CreateUiRun(env)
    ensures Channel(received, rx.pending) == Taken(old(rx.pending), env.ticks, passes)
    ensures state == ApplyAll(DefaultSlots, received)
    ensures received <= old(rx.pending) + Arrivals(env.ticks, |env.ticks|)
  {
    received, passes, state := [], 0, DefaultSlots;
    if !env.enableRawOk {
      return Returned(Err(IoError(EnableRaw))), passes, [EnableRaw], received, state;
    }
    if !env.enterAltOk {
      return Returned(Err(IoError(EnterAlt))), passes, [EnableRaw, EnterAlt], received, state;
    }
    if !env.newTerminalOk {
      return Returned(Err(IoError(NewTerminal))), passes, SetupCalls, received, state;
    }

    var stop, calls;
    stop, passes, calls, received, state := DrawUntilQuit(rx, env.ticks);
    trace := SetupCalls + calls;
    if stop.OutOfTicks? {
      return StillRunning, passes, trace, received, state;
    } else if stop.Failed? {
      return Returned(Err(stop.error)), passes, trace, received, state;
    }

    trace := trace + RestoreCalls(env);
    outcome := Restored(env, Ok(()));
  }

  /**
   * `create_ui` with the restore on every way out of the loop once the
   * terminal is set up (a quit, a failed draw, a failed poll or read), as
   * `CreateUiRestoringRun` gives it; the channel and the slots as in
   * `CreateUi`.
   */
  method CreateUiRestoring(rx: Receiver, env: Env)
    returns (outcome: Outcome, passes: nat, trace: seq<TermCall>, received: seq<Measurement>, state: Slots)
    modifies rx
    ensures passes <= |env.ticks| && (outcome, passes, trace) == CreateUiRestoringRun(env)
    ensures Channel(received, rx.pending) == Taken(old(rx.pending), env.ticks, passes)
    ensures state == ApplyAll(DefaultSlots, received)
    ensures received <= old(rx.pending) + Arrivals(env.ticks, |env.ticks|)
  {
    received, passes, state := [], 0, DefaultSlots;
    if !env.enableRawOk {
      return Returned(Err(IoError(EnableRaw))), passes, [EnableRaw], received, state;
    }
    if !env.enterAltOk {
      return Returned(Err(IoError(EnterAlt))), passes, [EnableRaw, EnterAlt], received, state;
    }
    if !env.newTerminalOk {
      return Returned(Err(IoError(NewTerminal))), passes, SetupCalls, received, state;
    }

    var stop, calls;
    stop, passes, calls, received, state := DrawUntilQuit(rx, env.ticks);
    trace := SetupCalls + calls;
    if stop.OutOfTicks? {
      return StillRunning, passes, trace, received, state;
    }

    trace := trace + RestoreCalls(env);
    outcome := Restored(env, if stop.Failed? then Err(stop.error) else Ok(()));
  }
}
