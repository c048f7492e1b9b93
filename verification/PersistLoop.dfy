/**
 The debounced save loop of a room (backend/internal/game/room_persist.go).

 A bounded channel feeds one goroutine that keeps at most one pending job and a timer. The
 timer is the classic Go timer: a value it sent stays in its channel until somebody takes it,
 also after Stop, so stale wake-ups are part of the model.
 */
module PersistLoop {
  import opened Prelude

  const QUEUE_SIZE := 8

  datatype Job = Job(code: string, state: string, final: bool)

  /** `running`: the timer will fire; `buffered`: it fired and the value is still in its channel. */
  datatype Timer = NoTimer | Timer(running: bool, buffered: bool)

  /**
   `listening` is timerC != nil. `accepted` and `written` record every job that entered the
   channel and every write attempt; `crashed` is a panic (a send on, or close of, a closed channel).
   */
  datatype Loop = Loop(
    started: bool, disabled: bool, closed: bool, exited: bool, crashed: bool,
    queue: seq<Job>, pending: Option<Job>, timer: Timer, listening: bool,
    accepted: seq<Job>, written: seq<Job>)

  datatype Action =
    | Enqueue(code: string, state: string)
    | FlushSync(code: string, state: string)
    | Stop
    | TimerFires
    | LoopReceives
    | LoopWakes

  function NewLoop(): (l: Loop) {
    Loop(false, false, false, false, false, [], None, NoTimer, false, [], [])
  }

  // ---------------------------------------------------------------- callers

  /** startLoop behind its sync.Once. */
  function Start(l: Loop): (l': Loop) {
    if l.disabled then l else l.(started := true)
  }

  /** A send on the channel: refused when full or when the channel was never made. */
  function Send(l: Loop, job: Job): (l': Loop) {
    if !l.started then l
    else if l.closed then l.(crashed := true)
    else if |l.queue| < QUEUE_SIZE then l.(queue := l.queue + [job], accepted := l.accepted + [job])
    else l
  }

  function Close(l: Loop): (l': Loop) {
    if !l.started then l.(disabled := true)
    else if l.closed then l.(crashed := true)
    else l.(closed := true)
  }

  // ---------------------------------------------------------------- the goroutine

  function StopTimer(t: Timer): (t': Timer) {
    if t.NoTimer? then t else t.(running := false)
  }

  function Flush(l: Loop): (l': Loop) {
    if l.pending.None? then l
    else l.(pending := None, timer := StopTimer(l.timer), listening := l.timer.NoTimer? && l.listening,
            written := l.written + [l.pending.value])
  }

  /** NewTimer, or Stop with a drain and Reset: either way the timer runs and nothing stale is left. */
  function Rearm(t: Timer): (t': Timer) {
    if t.NoTimer? then Timer(true, false)
    else Timer(true, t.buffered && t.running)
  }

  function Receive(l: Loop): (l': Loop) {
    if !l.started || l.exited then l
    else if l.queue == [] then (if l.closed then Flush(l).(exited := true) else l)
    else
      var job, rest := l.queue[0], l.(queue := l.queue[1..]);
      if job.final then
        var flushed := Flush(rest);
        flushed.(written := flushed.written + [job])
      else rest.(pending := Some(job), timer := Rearm(l.timer), listening := true)
  }

  function Wake(l: Loop): (l': Loop) {
    if l.started && !l.exited && l.listening && l.timer.Timer? && l.timer.buffered
    then Flush(l.(timer := l.timer.(buffered := false))) else l
  }

  function Next(l: Loop, a: Action): (l': Loop) {
    if l.crashed then l else
    match a
    case Enqueue(code, state) => Send(Start(l), Job(code, state, false))
    case FlushSync(code, state) => Send(Start(l), Job(code, state, true))
    case Stop => Close(l)
    case TimerFires => if l.timer.Timer? && l.timer.running then l.(timer := Timer(false, true)) else l
    case LoopReceives => Receive(l)
    case LoopWakes => Wake(l)
  }

  function Run(l: Loop, actions: seq<Action>): (l': Loop)
    decreases |actions|
  {
    if actions == [] then l else Run(Next(l, actions[0]), actions[1..])
  }

  // ---------------------------------------------------------------- subsequences

  function Init(s: seq<Job>): (r: seq<Job>)
    requires s != []
  {
    s[..|s| - 1]
  }

  function Last(s: seq<Job>): (j: Job)
    requires s != []
  {
    s[|s| - 1]
  }

  /** `w` is `a` with some jobs left out, in the same order. */
  ghost predicate Subsequence(w: seq<Job>, a: seq<Job>)
    decreases |a|
  {
    || w == []
    || (a != [] && (Subsequence(w, Init(a)) || (Last(w) == Last(a) && Subsequence(Init(w), Init(a)))))
  }

  lemma SkipOne(w: seq<Job>, a: seq<Job>, j: Job)
    requires Subsequence(w, a)
    ensures Subsequence(w, a + [j])
  {
    assert Init(a + [j]) == a;
  }

  lemma TakeOne(w: seq<Job>, a: seq<Job>, j: Job)
    requires Subsequence(w, a)
    ensures Subsequence(w + [j], a + [j])
  {
    assert Init(a + [j]) == a && Init(w + [j]) == w;
  }

  function Finals(s: seq<Job>): (r: seq<Job>) {
    if s == [] then [] else Finals(Init(s)) + (if Last(s).final then [Last(s)] else [])
  }

  lemma FinalsAppend(s: seq<Job>, j: Job)
    ensures Finals(s + [j]) == Finals(s) + if j.final then [j] else []
  {
    assert Init(s + [j]) == s;
  }

  // ---------------------------------------------------------------- the invariant

  /** What the goroutine has taken from the channel so far. */
  ghost function Taken(l: Loop): (s: seq<Job>) {
    l.accepted[..if |l.queue| <= |l.accepted| then |l.accepted| - |l.queue| else 0]
  }

  ghost predicate QueueOk(l: Loop) {
    && |l.queue| <= QUEUE_SIZE
    && l.accepted == Taken(l) + l.queue
    && (!l.started ==> l.accepted == [] && !l.closed)
    && (l.exited ==> l.closed && l.queue == [] && l.pending.None?)
  }

  /** A job is pending exactly when the loop listens to a timer that runs or has fired. */
  ghost predicate TimerOk(pending: Option<Job>, timer: Timer, listening: bool) {
    && (pending.Some? <==> listening)
    && (listening ==> timer.Timer? && (timer.running || timer.buffered))
    && (timer.Timer? && timer.running ==> listening && !timer.buffered)
  }

  /** Writes are the taken jobs in order, minus superseded ones; the last taken job is pending or written last. */
  ghost predicate WritesOk(taken: seq<Job>, pending: Option<Job>, written: seq<Job>) {
    && Finals(written) == Finals(taken)
    && match pending
       case None => Subsequence(written, taken) && (taken != [] ==> written != [] && Last(written) == Last(taken))
       case Some(j) => taken != [] && Last(taken) == j && !j.final && Subsequence(written, Init(taken))
  }

  ghost predicate Inv(l: Loop) {
    QueueOk(l) && TimerOk(l.pending, l.timer, l.listening) && WritesOk(Taken(l), l.pending, l.written)
  }

  lemma FlushWrites(taken: seq<Job>, j: Job, written: seq<Job>)
    requires WritesOk(taken, Some(j), written)
    ensures WritesOk(taken, None, written + [j])
  {
    hide Subsequence, Finals;
    assert taken == Init(taken) + [j];
    TakeOne(written, Init(taken), j);
    FinalsAppend(written, j);
  }

  lemma FlushKeeps(l: Loop)
    requires Inv(l)
    ensures Inv(Flush(l)) && Flush(l).pending.None? && Taken(Flush(l)) == Taken(l)
    ensures Flush(l).queue == l.queue && Flush(l).closed == l.closed && Flush(l).accepted == l.accepted
  {
    hide WritesOk;
    if l.pending.Some? {
      FlushWrites(Taken(l), l.pending.value, l.written);
    }
  }

  /** A final job is written at once, a normal one becomes pending and may replace another. */
  lemma TakeWrites(taken: seq<Job>, pending: Option<Job>, written: seq<Job>, j: Job)
    requires WritesOk(taken, pending, written)
    ensures pending.None? && j.final ==> WritesOk(taken + [j], None, written + [j])
    ensures !j.final ==> WritesOk(taken + [j], Some(j), written)
  {
    hide Subsequence, Finals;
    FinalsAppend(taken, j);
    FinalsAppend(written, j);
    assert Init(taken + [j]) == taken;
    if pending.None? {
      TakeOne(written, taken, j);
    } else {
      assert taken == Init(taken) + [Last(taken)];
      SkipOne(written, Init(taken), Last(taken));
    }
  }

  lemma TakenMoves(l: Loop, job: Job)
    requires QueueOk(l) && l.queue != [] && job == l.queue[0]
    ensures Taken(l.(queue := l.queue[1..])) == Taken(l) + [job]
    ensures l.accepted == Taken(l) + [job] + l.queue[1..]
  {
    hide QueueOk;
    assert l.accepted == Taken(l) + l.queue by { QueueSplits(l); }
    HeadMoves(l.accepted, Taken(l), l.queue);
  }

  lemma QueueSplits(l: Loop)
    requires QueueOk(l)
    ensures l.accepted == Taken(l) + l.queue
  {
  }

  lemma HeadMoves(all: seq<Job>, front: seq<Job>, queue: seq<Job>)
    requires all == front + queue && queue != []
    ensures all[..|all| - |queue[1..]|] == front + [queue[0]] && all == front + [queue[0]] + queue[1..]
  {
    assert queue == [queue[0]] + queue[1..];
  }

  lemma ReceiveFinal(l: Loop)
    requires Inv(l) && l.started && !l.exited && l.queue != [] && l.queue[0].final
    ensures Inv(Receive(l))
  {
    hide WritesOk;
    var job := l.queue[0];
    var flushed := Flush(l);
    FlushKeeps(l);
    TakenMoves(l, job);
    TakeWrites(Taken(l), None, flushed.written, job);
    var r := Receive(l);
    assert r.written == flushed.written + [job] && r.pending.None? && r.accepted == l.accepted;
    assert Taken(r) == Taken(l) + [job];
  }

  lemma ReceiveNormal(l: Loop)
    requires Inv(l) && l.started && !l.exited && l.queue != [] && !l.queue[0].final
    ensures Inv(Receive(l))
  {
    hide WritesOk;
    var job := l.queue[0];
    TakenMoves(l, job);
    TakeWrites(Taken(l), l.pending, l.written, job);
    assert Taken(Receive(l)) == Taken(l) + [job];
  }

  lemma ReceiveKeeps(l: Loop)
    requires Inv(l)
    ensures Inv(Receive(l))
  {
    hide WritesOk, Flush;
    if l.started && !l.exited {
      if l.queue == [] {
        FlushKeeps(l);
      } else if l.queue[0].final {
        ReceiveFinal(l);
      } else {
        ReceiveNormal(l);
      }
    }
  }

  lemma WakeKeeps(l: Loop)
    requires Inv(l)
    ensures Inv(Wake(l))
  {
    hide WritesOk;
    if l.pending.Some? {
      FlushWrites(Taken(l), l.pending.value, l.written);
    }
    assert Taken(Wake(l)) == Taken(l);
  }

  lemma SendKeeps(l: Loop, job: Job)
    requires Inv(l)
    ensures Inv(Send(l, job)) && Inv(Start(l)) && Inv(Close(l))
  {
    hide WritesOk;
    assert Taken(Send(l, job)) == Taken(l);
    assert Taken(Start(l)) == Taken(l) == Taken(Close(l));
  }

  lemma StepKeeps(l: Loop, a: Action)
    requires Inv(l)
    ensures Inv(Next(l, a))
  {
    match a {
      case Enqueue(code, state) => EnqueueKeeps(l, Job(code, state, false));
      case FlushSync(code, state) => EnqueueKeeps(l, Job(code, state, true));
      case Stop => EnqueueKeeps(l, Job("", "", false));
      case TimerFires => FireKeeps(l);
      case LoopReceives => ReceiveKeeps(l);
      case LoopWakes => WakeKeeps(l);
    }
  }

  lemma EnqueueKeeps(l: Loop, job: Job)
    requires Inv(l)
    ensures Inv(Send(Start(l), job)) && Inv(Close(l))
  {
    hide Inv, Send, Close, Start;
    SendKeeps(l, job);
    SendKeeps(Start(l), job);
  }

  lemma FireKeeps(l: Loop)
    requires Inv(l)
    ensures Inv(Next(l, TimerFires))
  {
    hide WritesOk;
    assert Taken(Next(l, TimerFires)) == Taken(l);
  }

  lemma {:induction false} RunKeeps(l: Loop, actions: seq<Action>)
    requires Inv(l)
    ensures Inv(Run(l, actions))
    decreases |actions|
  {
    hide Inv, Next;
    if actions != [] {
      StepKeeps(l, actions[0]);
      RunKeeps(Next(l, actions[0]), actions[1..]);
    }
  }

  lemma NewLoopOk()
    ensures Inv(NewLoop())
  {
  }

  // ---------------------------------------------------------------- main results

  /** A pending job always has a timer that will wake the loop. */
  lemma PendingIsArmed(actions: seq<Action>)
    ensures var l := Run(NewLoop(), actions);
            && (l.pending.Some? ==> l.listening && l.timer.Timer? && (l.timer.running || l.timer.buffered))
            && (l.listening ==> l.pending.Some?)
  {
    NewLoopOk();
    RunKeeps(NewLoop(), actions);
  }

  lemma {:induction false} SubsequenceOfPrefix(w: seq<Job>, a: seq<Job>, rest: seq<Job>)
    requires Subsequence(w, a)
    ensures Subsequence(w, a + rest)
    decreases |rest|
  {
    hide Subsequence;
    if rest == [] {
      assert a + rest == a;
    } else {
      SubsequenceOfPrefix(w, a, Init(rest));
      SkipOne(w, a + Init(rest), Last(rest));
      assert a + rest == a + Init(rest) + [Last(rest)];
    }
  }

  lemma WritesInOrder(l: Loop)
    requires Inv(l)
    ensures Subsequence(l.written, l.accepted) && Finals(l.written) == Finals(Taken(l))
  {
    hide Subsequence, Finals;
    if l.pending.None? {
      SubsequenceOfPrefix(l.written, Taken(l), l.queue);
    } else {
      SubsequenceOfPrefix(l.written, Init(Taken(l)), [Last(Taken(l))] + l.queue);
      assert l.accepted == Init(Taken(l)) + ([Last(Taken(l))] + l.queue);
    }
  }

  /** Under every schedule writes are a subsequence of the accepted jobs, and no final job is skipped. */
  lemma WritesFollowAcceptance(actions: seq<Action>)
    ensures var l := Run(NewLoop(), actions);
            Subsequence(l.written, l.accepted) && Finals(l.written) == Finals(Taken(l))
  {
    hide Subsequence, Finals, Inv;
    NewLoopOk();
    RunKeeps(NewLoop(), actions);
    WritesInOrder(Run(NewLoop(), actions));
  }

  ghost predicate Settled(l: Loop) {
    && l.queue == [] && l.pending.None?
    && (l.accepted != [] ==> l.written != [] && Last(l.written) == Last(l.accepted))
    && Finals(l.written) == Finals(l.accepted)
  }

  lemma IdleIsSettled(l: Loop)
    requires Inv(l) && l.queue == [] && l.pending.None?
    ensures Settled(l)
  {
    hide Subsequence, Finals;
    assert l.accepted == Taken(l);
  }

  lemma ExitSettles(l: Loop)
    requires Inv(l) && l.exited
    ensures Settled(l)
  {
    hide Settled, WritesOk;
    IdleIsSettled(l);
  }

  /** When the loop has exited, the last accepted job was attempted, and attempted after all others. */
  lemma LastJobIsWritten(actions: seq<Action>)
    requires Run(NewLoop(), actions).exited
    ensures Settled(Run(NewLoop(), actions))
  {
    hide Settled, Inv;
    NewLoopOk();
    RunKeeps(NewLoop(), actions);
    ExitSettles(Run(NewLoop(), actions));
  }

  lemma ReceiveProgress(l: Loop)
    requires l.started && l.closed && !l.exited && !l.crashed
    ensures var l' := Next(l, LoopReceives);
            && l'.started && l'.closed && !l'.crashed && l'.accepted == l.accepted
            && (if l.queue == [] then l'.exited else !l'.exited && |l'.queue| == |l.queue| - 1)
  {
  }

  /** A closed loop empties its channel and exits after one receive per queued job and one more. */
  lemma {:induction false} ClosedLoopDrains(l: Loop, receives: seq<Action>)
    requires Inv(l) && l.started && l.closed && !l.exited && !l.crashed
    requires |receives| == |l.queue| + 1 && forall i :: 0 <= i < |receives| ==> receives[i] == LoopReceives
    ensures var l' := Run(l, receives); l'.exited && Settled(l') && l'.accepted == l.accepted
    decreases |receives|
  {
    hide Inv, Settled, Next;
    ReceiveProgress(l);
    StepKeeps(l, receives[0]);
    var l' := Next(l, receives[0]);
    if l.queue != [] {
      ClosedLoopDrains(l', receives[1..]);
    } else {
      assert receives[1..] == [];
      ExitSettles(l');
    }
  }

  /** With nothing queued, the timer firing and the loop waking write the pending job. */
  lemma QuietLoopSaves(l: Loop)
    requires Inv(l) && l.started && !l.exited && !l.crashed && l.queue == []
    ensures Settled(Next(Next(l, TimerFires), LoopWakes))
  {
    StepKeeps(l, TimerFires);
    StepKeeps(Next(l, TimerFires), LoopWakes);
    hide Settled, WritesOk;
    IdleIsSettled(Next(Next(l, TimerFires), LoopWakes));
  }

  // ---------------------------------------------------------------- who makes which jobs

  /** A call finds a channel that is open and not full. */
  predicate HasRoom(l: Loop) {
    !l.crashed && !l.closed && (l.started || !l.disabled) && |l.queue| < 8
  }

  /** The jobs that the calls along a run put into the channel, in order: saves and flushes. */
  function Calls(l: Loop, actions: seq<Action>): (jobs: seq<Job>)
    decreases |actions|
  {
    if actions == [] then [] else
    var rest := Calls(Next(l, actions[0]), actions[1..]);
    match actions[0]
    case Enqueue(code, state) => (if HasRoom(l) then [Job(code, state, false)] else []) + rest
    case FlushSync(code, state) => (if HasRoom(l) then [Job(code, state, true)] else []) + rest
    case _ => rest
  }

  lemma StepAccepts(l: Loop, a: Action)
    requires Inv(l)
    ensures Next(l, a).accepted ==
            match a
            case Enqueue(code, state) => if HasRoom(l) then l.accepted + [Job(code, state, false)] else l.accepted
            case FlushSync(code, state) => if HasRoom(l) then l.accepted + [Job(code, state, true)] else l.accepted
            case _ => l.accepted
  {
    hide WritesOk, TimerOk, Taken;
  }

  /** In every run exactly those jobs are accepted: a save is never final, a flush always is. */
  lemma {:induction false} AcceptedAreCalls(l: Loop, actions: seq<Action>)
    requires Inv(l)
    ensures Run(l, actions).accepted == l.accepted + Calls(l, actions)
    decreases |actions|
  {
    hide Inv, Next, HasRoom;
    if actions != [] {
      StepAccepts(l, actions[0]);
      StepKeeps(l, actions[0]);
      AcceptedAreCalls(Next(l, actions[0]), actions[1..]);
    }
  }

  /** The flushes among the calls of a run. */
  function Flushes(l: Loop, actions: seq<Action>): (jobs: seq<Job>)
    decreases |actions|
  {
    if actions == [] then [] else
    var rest := Flushes(Next(l, actions[0]), actions[1..]);
    if actions[0].FlushSync? && HasRoom(l) then [Job(actions[0].code, actions[0].state, true)] + rest else rest
  }

  lemma {:induction false} FinalsOfConcat(a: seq<Job>, b: seq<Job>)
    ensures Finals(a + b) == Finals(a) + Finals(b)
    decreases |b|
  {
    hide Finals;
    if b == [] {
      assert a + b == a;
      NoFinals();
    } else {
      assert a + b == a + Init(b) + [Last(b)] && b == Init(b) + [Last(b)];
      FinalsOfConcat(a, Init(b));
      FinalsAppend(a + Init(b), Last(b));
      FinalsAppend(Init(b), Last(b));
    }
  }

  lemma NoFinals()
    ensures Finals([]) == []
  {
  }

  lemma OneFinal(j: Job)
    ensures Finals([j]) == if j.final then [j] else []
  {
    hide Finals;
    assert [] + [j] == [j];
    FinalsAppend([], j);
    NoFinals();
  }

  lemma {:induction false} FinalCallsAreFlushes(l: Loop, actions: seq<Action>)
    ensures Finals(Calls(l, actions)) == Flushes(l, actions)
    decreases |actions|
  {
    hide Next, HasRoom, Finals;
    if actions == [] {
      NoFinals();
    } else {
      var rest := Calls(Next(l, actions[0]), actions[1..]);
      FinalCallsAreFlushes(Next(l, actions[0]), actions[1..]);
      match actions[0] {
        case Enqueue(code, state) =>
          OneFinal(Job(code, state, false));
          FinalsOfConcat([Job(code, state, false)], rest);
          assert [] + rest == rest;
        case FlushSync(code, state) =>
          OneFinal(Job(code, state, true));
          FinalsOfConcat([Job(code, state, true)], rest);
          assert [] + rest == rest;
        case _ =>
      }
    }
  }

  /** The final jobs of every run are those of its flushes, in order. */
  lemma FinalsAreFlushes(actions: seq<Action>)
    ensures Finals(Run(NewLoop(), actions).accepted) == Flushes(NewLoop(), actions)
  {
    hide Inv, Run, Calls, Flushes, Finals;
    NewLoopOk();
    AcceptedAreCalls(NewLoop(), actions);
    assert NewLoop().accepted + Calls(NewLoop(), actions) == Calls(NewLoop(), actions);
    FinalCallsAreFlushes(NewLoop(), actions);
  }

  // ---------------------------------------------------------------- debouncing

  /** Open, and nothing final on its way. */
  predicate Saving(l: Loop) {
    !l.closed && forall i :: 0 <= i < |l.queue| ==> !l.queue[i].final
  }

  /** A stretch in which saves arrive and time passes, but nobody flushes or stops the loop. */
  predicate Burst(actions: seq<Action>) {
    forall i :: 0 <= i < |actions| ==> !actions[i].FlushSync? && !actions[i].Stop?
  }

  function WakeUps(actions: seq<Action>): (n: nat) {
    if actions == [] then 0 else (if actions[0].LoopWakes? then 1 else 0) + WakeUps(actions[1..])
  }

  /** In such a stretch only a wake-up writes, and what it writes is the last job taken. */
  lemma BurstStep(l: Loop, a: Action)
    requires Inv(l) && Saving(l) && !a.FlushSync? && !a.Stop?
    ensures Saving(Next(l, a))
    ensures Next(l, a).written == l.written ||
            (a.LoopWakes? && Taken(l) != [] && Next(l, a).written == l.written + [Last(Taken(l))])
    ensures l.started && !l.exited && !l.crashed && a.LoopReceives? && l.queue != [] ==>
              Next(l, a).pending == Some(l.queue[0]) && Next(l, a).timer.Timer? && Next(l, a).timer.running
  {
    hide Subsequence, Finals;
  }

  /** A burst of saves is coalesced: at most one write per wake-up, none without one. */
  lemma {:induction false} BurstWritesOncePerWake(l: Loop, actions: seq<Action>)
    requires Inv(l) && Saving(l) && Burst(actions)
    ensures |l.written| <= |Run(l, actions).written| <= |l.written| + WakeUps(actions)
    ensures WakeUps(actions) == 0 ==> Run(l, actions).written == l.written
    decreases |actions|
  {
    hide Inv, Next, Saving;
    if actions != [] {
      BurstStep(l, actions[0]);
      StepKeeps(l, actions[0]);
      assert Burst(actions[1..]);
      BurstWritesOncePerWake(Next(l, actions[0]), actions[1..]);
    }
  }

  // ---------------------------------------------------------------- the manager

  class PersistManager {
    var started: bool
    var disabled: bool
    var closed: bool
    var exited: bool
    var crashed: bool
    var queue: seq<Job>
    var pending: Option<Job>
    var timer: Timer
    var listening: bool
    var accepted: seq<Job>
    var written: seq<Job>

    ghost function View(): (l: Loop)
      reads this
    {
      Loop(started, disabled, closed, exited, crashed, queue, pending, timer, listening, accepted, written)
    }

    constructor ()
      ensures View() == NewLoop()
    {
      started, disabled, closed, exited, crashed := false, false, false, false, false;
      queue, pending, timer, listening, accepted, written := [], None, NoTimer, false, [], [];
    }

    method StartLoop()
      modifies this`started
      ensures View() == Start(old(View()))
    {
      if !disabled {
        started := true;
      }
    }

    method SendJob(job: Job) returns (sent: bool)
      modifies this`crashed, this`queue, this`accepted
      ensures View() == Send(old(View()), job)
      ensures sent ==> accepted == old(accepted) + [job]
      ensures !sent ==> accepted == old(accepted)
    {
      sent := false;
      if !started {
        return;
      }
      if closed {
        crashed := true;
        return;
      }
      if |queue| < QUEUE_SIZE {
        queue := queue + [job];
        accepted := accepted + [job];
        sent := true;
      }
    }

    method EnqueuePersist(code: string, state: string)
      requires !crashed
      modifies this
      ensures View() == Next(old(View()), Enqueue(code, state))
      ensures written == old(written) && pending == old(pending)
      ensures accepted == if HasRoom(old(View())) then old(accepted) + [Job(code, state, false)] else old(accepted)
    {
      StartLoop();
      var _ := SendJob(Job(code, state, false));
    }

    /** The sending half of flushSync; waiting for `done` changes nothing. */
    method FlushSync(code: string, state: string)
      requires !crashed
      modifies this
      ensures View() == Next(old(View()), Action.FlushSync(code, state))
      ensures written == old(written) && pending == old(pending)
      ensures accepted == if HasRoom(old(View())) then old(accepted) + [Job(code, state, true)] else old(accepted)
    {
      StartLoop();
      var _ := SendJob(Job(code, state, true));
    }

    method Stop()
      requires !crashed
      modifies this
      ensures View() == Next(old(View()), Action.Stop)
    {
      if !started {
        disabled := true;
      } else if closed {
        crashed := true;
      } else {
        closed := true;
      }
    }

    method FlushPending()
      modifies this`pending, this`timer, this`listening, this`written
      ensures View() == Flush(old(View()))
    {
      if pending.None? {
        return;
      }
      var job := pending.value;
      pending := None;
      if timer.Timer? {
        timer := timer.(running := false);
        listening := false;
      }
      written := written + [job];
    }

    /** One turn of the select on the job channel. */
    method Receive()
      requires !crashed
      modifies this
      ensures View() == Next(old(View()), LoopReceives)
    {
      if !started || exited {
        return;
      }
      if queue == [] {
        if closed {
          FlushPending();
          exited := true;
        }
        return;
      }
      var job := queue[0];
      queue := queue[1..];
      if job.final {
        FlushPending();
        written := written + [job];
        return;
      }
      pending := Some(job);
      if timer.NoTimer? {
        timer := Timer(true, false);
      } else {
        var stopped := timer.running;
        timer := timer.(running := false);
        if !stopped {
          timer := timer.(buffered := false);
        }
        timer := timer.(running := true);
      }
      listening := true;
    }

    /** One turn of the select on the timer channel. */
    method Wake()
      requires !crashed
      modifies this
      ensures View() == Next(old(View()), LoopWakes)
    {
      if started && !exited && listening && timer.Timer? && timer.buffered {
        timer := timer.(buffered := false);
        FlushPending();
      }
    }
  }
}
