/**
 The email stream (backend/internal/worker/retry.go and email_worker.go).

 Entries are added to a stream and acknowledged one by one; any number of workers may hold
 copies of the same unacknowledged entry, because crashed or slow holders lose it to others.
 One step is one command of one worker; commands may fail, fail after taking effect, and
 workers may crash between any two of them.
 */
module EmailStream {
  import opened Prelude
  import Decimal

  const MAX_RETRIES := 5
  const MAX_INT := 0x7FFF_FFFF_FFFF_FFFF

  /** `serial` is the id of the entry the producer added: it tells equal texts apart. */
  datatype Email = Email(serial: nat, to: string, subject: string, body: string)
  datatype Payload = Invalid | Mail(email: Email)
  datatype Entry = Entry(payload: Payload, retry: Option<string>)

  // ---------------------------------------------------------------- the retry counter

  /** strconv.Itoa. */
  function Itoa(n: int): (s: string) {
    if n < 0 then "-" + Decimal.Print(-n) else Decimal.Print(n)
  }

  function Digits(s: string): (n: Option<nat>) {
    if s != [] && forall i :: 0 <= i < |s| ==> Decimal.IsDigit(s[i]) then Some(Decimal.Value(s)) else None
  }

  /** strconv.Atoi: an optional sign, digits, and the range of int64. */
  function Atoi(s: string): (n: Option<int>) {
    var signed := s != [] && (s[0] == '-' || s[0] == '+');
    match Digits(if signed then s[1..] else s)
    case None => None
    case Some(v) =>
      var n := if s[0] == '-' then 0 - v as int else v as int;
      if -MAX_INT - 1 <= n <= MAX_INT then Some(n) else None
  }

  /** parseRetryCount: 0 when the field is absent or does not parse. */
  function RetryCount(e: Entry): (n: int) {
    if e.retry.Some? && Atoi(e.retry.value).Some? then Atoi(e.retry.value).value else 0
  }

  /** What is written is what is read back. */
  lemma AtoiOfItoa(n: int)
    requires -MAX_INT - 1 <= n <= MAX_INT
    ensures Atoi(Itoa(n)) == Some(n)
  {
    var digits := Decimal.Print(if n < 0 then -n else n);
    Decimal.ValueOfPrint(if n < 0 then -n else n);
    if n < 0 {
      assert Itoa(n)[1..] == digits;
    } else {
      assert Decimal.IsDigit(digits[0]);
    }
  }

  // ---------------------------------------------------------------- the machine

  datatype Stage = Holding | Retrying | Burying | Refusing | Acking
  datatype Worker = Worker(id: nat, stage: Stage)

  /**
   `dead` and `refused` make up the dead-letter stream: given up after transient failures and
   refused permanently. `dropped` is what a permanent failure lost because that add failed.
   */
  datatype Stream = Stream(
    entries: map<nat, Entry>, nextId: nat, acked: set<nat>, workers: map<nat, Worker>,
    sent: set<Email>, dead: set<Email>, refused: set<Email>, dropped: set<Email>, failures: map<Email, nat>)

  datatype SendReply = Delivered | Transient | Permanent | NoApiKey
  datatype AddReply = Added | AddedUnanswered | NotAdded

  datatype Action =
    | Enqueue(content: Option<(string, string, string)>, retry: Option<string>)
    | Take(worker: nat, id: nat)
    | Send(worker: nat, reply: SendReply)
    | Add(worker: nat, added: AddReply)
    | Ack(worker: nat, applied: bool)
    | Crash(worker: nat)

  function NewStream(): (s: Stream) {
    Stream(map[], 0, {}, map[], {}, {}, {}, {}, map[])
  }

  function Append(s: Stream, e: Entry): (s': Stream) {
    s.(entries := s.entries[s.nextId := e], nextId := s.nextId + 1)
  }

  function Idle(s: Stream, w: nat): (s': Stream) {
    s.(workers := s.workers - {w})
  }

  function Failures(failures: map<Email, nat>, e: Email): (n: nat) {
    if e in failures then failures[e] else 0
  }

  predicate At(s: Stream, w: nat, stage: Stage) {
    w in s.workers && s.workers[w].id in s.entries && s.workers[w].stage == stage
  }

  function EntryOf(s: Stream, w: nat): (e: Entry)
    requires w in s.workers && s.workers[w].id in s.entries
  {
    s.entries[s.workers[w].id]
  }

  function GoTo(s: Stream, w: nat, stage: Stage): (s': Stream)
    requires w in s.workers
  {
    s.(workers := s.workers[w := s.workers[w].(stage := stage)])
  }

  /**
   processMessage up to the answer of the mail service, and the branch of handleRetry. A negative
   count panics where the backoff shifts by it, before anything is added or acknowledged.
   */
  function SendMail(s: Stream, w: nat, reply: SendReply): (s': Stream) {
    if !At(s, w, Holding) then s else
    match EntryOf(s, w).payload
    case Invalid => GoTo(s, w, Acking)
    case Mail(e) =>
      match reply
      case NoApiKey => Idle(s, w)
      case Delivered => GoTo(s.(sent := s.sent + {e}), w, Acking)
      case Permanent => GoTo(s, w, Refusing)
      case Transient =>
        var failed := s.(failures := s.failures[e := Failures(s.failures, e) + 1]);
        var count := RetryCount(EntryOf(s, w));
        if count < 0 then Idle(failed, w)
        else GoTo(failed, w, if count >= MAX_RETRIES then Burying else Retrying)
  }

  /** The XADD of a retry or of a dead letter. Only the permanent branch goes on after an error. */
  function AddEntry(s: Stream, w: nat, added: AddReply): (s': Stream) {
    if At(s, w, Retrying) then
      var entry := EntryOf(s, w);
      var added' := if added == NotAdded then s else Append(s, entry.(retry := Some(Itoa(RetryCount(entry) + 1))));
      if added == Added then GoTo(added', w, Acking) else Idle(added', w)
    else if At(s, w, Burying) && EntryOf(s, w).payload.Mail? then
      var buried := if added == NotAdded then s else s.(dead := s.dead + {EntryOf(s, w).payload.email});
      if added == Added then GoTo(buried, w, Acking) else Idle(buried, w)
    else if At(s, w, Refusing) && EntryOf(s, w).payload.Mail? then
      var e := EntryOf(s, w).payload.email;
      GoTo(if added == NotAdded then s.(dropped := s.dropped + {e}) else s.(refused := s.refused + {e}), w, Acking)
    else s
  }

  function Acknowledge(s: Stream, w: nat, applied: bool): (s': Stream) {
    if !At(s, w, Acking) then s
    else Idle(s.(acked := if applied then s.acked + {s.workers[w].id} else s.acked), w)
  }

  function Next(s: Stream, a: Action): (s': Stream) {
    match a
    case Enqueue(content, retry) =>
      var payload := if content.None? then Invalid
                     else Mail(Email(s.nextId, content.value.0, content.value.1, content.value.2));
      Append(s, Entry(payload, retry))
    case Take(w, id) =>
      if w in s.workers || id !in s.entries || id in s.acked then s
      else s.(workers := s.workers[w := Worker(id, Holding)])
    case Send(w, reply) => SendMail(s, w, reply)
    case Add(w, added) => AddEntry(s, w, added)
    case Ack(w, applied) => Acknowledge(s, w, applied)
    case Crash(w) => Idle(s, w)
  }

  function Run(s: Stream, actions: seq<Action>): (s': Stream)
    decreases |actions|
  {
    if actions == [] then s else Run(Next(s, actions[0]), actions[1..])
  }

  // ---------------------------------------------------------------- at least once

  /** Entry `id` still offers email `e` to the workers. */
  predicate Offers(s: Stream, id: nat, e: Email) {
    id in s.entries && id !in s.acked && s.entries[id].payload == Mail(e)
  }

  predicate Settled(s: Stream, e: Email) {
    e in s.sent || e in s.dead || e in s.refused || e in s.dropped
  }

  /** The email is dealt with, or some entry after `bound` still offers it. */
  ghost predicate Covered(s: Stream, e: Email, bound: int) {
    Settled(s, e) || exists id: nat :: id > bound && Offers(s, id, e)
  }

  /**
   Whoever is about to acknowledge an entry leaves its email covered by a later one. The order
   of ids is what rules out two workers vouching for each other.
   */
  ghost predicate WorkerOk(s: Stream, w: nat)
    requires w in s.workers
  {
    var id := s.workers[w].id;
    && id in s.entries
    && (s.workers[w].stage != Holding && s.workers[w].stage != Acking ==> s.entries[id].payload.Mail?)
    && (s.workers[w].stage == Acking && s.entries[id].payload.Mail? ==> Covered(s, s.entries[id].payload.email, id))
  }

  ghost predicate Inv(s: Stream) {
    && (forall id :: id in s.entries ==> id < s.nextId)
    && (forall id :: id in s.acked ==> id in s.entries)
    && (forall w :: w in s.workers ==> WorkerOk(s, w))
    && (forall id :: id in s.entries && s.entries[id].payload.Mail? ==> Covered(s, s.entries[id].payload.email, -1))
  }

  /** Nothing is taken away: entries stay, outcomes stay, no new acknowledgement. */
  ghost predicate Grows(s: Stream, s': Stream) {
    && (forall id :: id in s.entries ==> id in s'.entries && s'.entries[id] == s.entries[id])
    && s'.acked == s.acked
    && s.sent <= s'.sent && s.dead <= s'.dead && s.refused <= s'.refused && s.dropped <= s'.dropped
  }

  lemma CoverGrows(s: Stream, s': Stream, e: Email, bound: int)
    requires Grows(s, s') && Covered(s, e, bound)
    ensures Covered(s', e, bound)
  {
    if !Settled(s, e) {
      var id: nat :| id > bound && Offers(s, id, e);
      assert Offers(s', id, e);
    }
  }

  /** Acknowledging a covered entry uncovers nothing. */
  lemma CoverAck(s: Stream, w: nat, e: Email, bound: int)
    requires Inv(s) && At(s, w, Acking) && Covered(s, e, bound)
    ensures Covered(Acknowledge(s, w, true), e, bound)
  {
    var s' := Acknowledge(s, w, true);
    var acked := s.workers[w].id;
    assert WorkerOk(s, w);
    if !Settled(s, e) {
      var id: nat :| id > bound && Offers(s, id, e);
      if id != acked {
        assert Offers(s', id, e);
      } else {
        var later: nat :| later > acked && Offers(s, later, e);
        assert Offers(s', later, e);
      }
    }
  }

  /** A step that only adds keeps the invariant if the worker it moves is fine afterwards. */
  lemma GrowKeeps(s: Stream, s': Stream, moved: set<nat>)
    requires Inv(s) && Grows(s, s')
    requires forall id :: id in s'.entries ==> id < s'.nextId
    requires forall id :: id in s'.entries && id !in s.entries && s'.entries[id].payload.Mail? ==>
               Covered(s', s'.entries[id].payload.email, -1)
    requires forall w :: w in s'.workers && w !in moved ==> w in s.workers && s'.workers[w] == s.workers[w]
    requires forall w :: w in s'.workers && w in moved ==> WorkerOk(s', w)
    ensures Inv(s')
  {
    hide Covered;
    forall id | id in s.entries && s.entries[id].payload.Mail?
      ensures Covered(s', s.entries[id].payload.email, -1)
    {
      CoverGrows(s, s', s.entries[id].payload.email, -1);
    }
    forall w | w in s'.workers && w !in moved
      ensures WorkerOk(s', w)
    {
      assert WorkerOk(s, w);
      var id := s.workers[w].id;
      if s.workers[w].stage == Acking && s.entries[id].payload.Mail? {
        CoverGrows(s, s', s.entries[id].payload.email, id);
      }
    }
  }

  lemma NewIsOffered(s: Stream, e: Email, entry: Entry)
    requires Inv(s) && entry.payload == Mail(e)
    ensures Covered(Append(s, entry), e, s.nextId - 1)
  {
    assert s.nextId !in s.acked;
    assert Offers(Append(s, entry), s.nextId, e);
  }

  lemma CoveredBelow(s: Stream, e: Email, bound: int, lower: int)
    requires Covered(s, e, bound) && lower <= bound
    ensures Covered(s, e, lower)
  {
  }

  lemma EnqueueKeeps(s: Stream, entry: Entry)
    requires Inv(s)
    ensures Inv(Append(s, entry)) && Grows(s, Append(s, entry))
  {
    var s' := Append(s, entry);
    if entry.payload.Mail? {
      NewIsOffered(s, entry.payload.email, entry);
      CoveredBelow(s', entry.payload.email, s.nextId - 1, -1);
    }
    hide Covered, WorkerOk;
    GrowKeeps(s, s', {});
  }

  lemma SendKeeps(s: Stream, w: nat, reply: SendReply)
    requires Inv(s)
    ensures Inv(SendMail(s, w, reply))
  {
    hide RetryCount;
    if At(s, w, Holding) {
      var s' := SendMail(s, w, reply);
      assert Grows(s, s');
      assert w in s'.workers ==> WorkerOk(s', w);
      hide Covered, WorkerOk, SendMail;
      SendFrame(s, w, reply);
      GrowKeeps(s, s', {w});
    }
  }

  lemma SendFrame(s: Stream, w: nat, reply: SendReply)
    ensures var s' := SendMail(s, w, reply);
            && s'.entries == s.entries && s'.nextId == s.nextId
            && forall x :: x in s'.workers && x != w ==> x in s.workers && s'.workers[x] == s.workers[x]
  {
    hide RetryCount;
  }

  lemma RetryKeeps(s: Stream, w: nat, added: AddReply)
    requires Inv(s) && At(s, w, Retrying)
    ensures Inv(AddEntry(s, w, added))
  {
    hide RetryCount, Itoa;
    assert WorkerOk(s, w);
    var entry := EntryOf(s, w);
    var e := entry.payload.email;
    var copy := entry.(retry := Some(Itoa(RetryCount(entry) + 1)));
    var s' := AddEntry(s, w, added);
    if added == NotAdded {
      GrowKeeps(s, s', {w});
    } else {
      var grown := Append(s, copy);
      EnqueueKeeps(s, copy);
      NewIsOffered(s, e, copy);
      CoveredBelow(grown, e, s.nextId - 1, s.workers[w].id);
      CoverGrows(grown, s', e, s.workers[w].id);
      hide Covered;
      GrowKeeps(grown, s', {w});
    }
  }

  lemma LetterKeeps(s: Stream, w: nat, added: AddReply)
    requires Inv(s) && (At(s, w, Burying) || At(s, w, Refusing))
    ensures Inv(AddEntry(s, w, added))
  {
    assert WorkerOk(s, w);
    var s' := AddEntry(s, w, added);
    assert Grows(s, s');
    assert w in s'.workers ==> WorkerOk(s', w);
    hide Covered, WorkerOk;
    GrowKeeps(s, s', {w});
  }

  lemma AckKeeps(s: Stream, w: nat, applied: bool)
    requires Inv(s)
    ensures Inv(Acknowledge(s, w, applied))
  {
    hide Covered;
    if At(s, w, Acking) && applied {
      var s' := Acknowledge(s, w, true);
      forall id | id in s.entries && s.entries[id].payload.Mail?
        ensures Covered(s', s.entries[id].payload.email, -1)
      {
        CoverAck(s, w, s.entries[id].payload.email, -1);
      }
      forall x | x in s'.workers
        ensures WorkerOk(s', x)
      {
        assert WorkerOk(s, x);
        var id := s.workers[x].id;
        if s.workers[x].stage == Acking && s.entries[id].payload.Mail? {
          CoverAck(s, w, s.entries[id].payload.email, id);
        }
      }
      assert WorkerOk(s, w);
    } else if At(s, w, Acking) {
      GrowKeeps(s, Acknowledge(s, w, false), {});
    }
  }

  lemma TakeKeeps(s: Stream, w: nat, id: nat)
    requires Inv(s)
    ensures Inv(Next(s, Take(w, id))) && Inv(Idle(s, w))
  {
    hide Covered;
    GrowKeeps(s, Idle(s, w), {});
    GrowKeeps(s, Next(s, Take(w, id)), if w in s.workers then {} else {w});
  }

  lemma StepKeeps(s: Stream, a: Action)
    requires Inv(s)
    ensures Inv(Next(s, a))
  {
    hide Inv, Append, Acknowledge, SendMail, AddEntry, Idle;
    match a {
      case Enqueue(content, retry) =>
        var payload := if content.None? then Invalid
                       else Mail(Email(s.nextId, content.value.0, content.value.1, content.value.2));
        EnqueueKeeps(s, Entry(payload, retry));
      case Take(w, id) => TakeKeeps(s, w, id);
      case Send(w, reply) => SendKeeps(s, w, reply);
      case Add(w, added) => AddKeeps(s, w, added);
      case Ack(w, applied) => AckKeeps(s, w, applied);
      case Crash(w) => TakeKeeps(s, w, 0);
    }
  }

  lemma AddKeeps(s: Stream, w: nat, added: AddReply)
    requires Inv(s)
    ensures Inv(AddEntry(s, w, added))
  {
    hide Inv;
    if At(s, w, Retrying) {
      RetryKeeps(s, w, added);
    } else if At(s, w, Burying) || At(s, w, Refusing) {
      LetterKeeps(s, w, added);
    }
  }

  lemma {:induction false} RunKeeps(s: Stream, actions: seq<Action>)
    requires Inv(s)
    ensures Inv(Run(s, actions))
    decreases |actions|
  {
    hide Inv, Next;
    if actions != [] {
      StepKeeps(s, actions[0]);
      RunKeeps(Next(s, actions[0]), actions[1..]);
    }
  }

  lemma NewStreamOk()
    ensures Inv(NewStream())
  {
  }

  /**
   At least once: in every run every well-formed email that ever entered the stream has been
   sent, is in the dead-letter stream, is still offered by an unacknowledged entry, or was
   dropped by a permanent failure whose dead-letter add failed.
   */
  lemma AtLeastOnce(actions: seq<Action>, id: nat)
    requires var s := Run(NewStream(), actions); id in s.entries && s.entries[id].payload.Mail?
    ensures var s := Run(NewStream(), actions);
            var e := s.entries[id].payload.email;
            || e in s.sent || e in s.dead || e in s.refused
            || (exists i: nat :: Offers(s, i, e))
            || e in s.dropped
  {
    NewStreamOk();
    RunKeeps(NewStream(), actions);
    var s := Run(NewStream(), actions);
    var e := s.entries[id].payload.email;
    assert Covered(s, e, -1);
    if !Settled(s, e) {
      var i: nat :| i > -1 && Offers(s, i, e);
    }
  }

  /** The one careless command: a permanent failure whose dead-letter add fails. */
  predicate Careless(s: Stream, a: Action) {
    a.Add? && a.added == NotAdded && At(s, a.worker, Refusing)
  }

  ghost predicate CarefulRun(s: Stream, actions: seq<Action>)
    decreases |actions|
  {
    actions != [] ==> !Careless(s, actions[0]) && CarefulRun(Next(s, actions[0]), actions[1..])
  }

  lemma CarefulStep(s: Stream, a: Action)
    requires !Careless(s, a)
    ensures Next(s, a).dropped == s.dropped
  {
    hide RetryCount, Itoa;
  }

  /** Nothing is dropped in a run without that command. */
  lemma {:induction false} CarefulDropsNothing(s: Stream, actions: seq<Action>)
    requires CarefulRun(s, actions)
    ensures Run(s, actions).dropped == s.dropped
    decreases |actions|
  {
    hide Next, Careless;
    if actions != [] {
      CarefulStep(s, actions[0]);
      CarefulDropsNothing(Next(s, actions[0]), actions[1..]);
    }
  }

  /** So without it the guarantee has no exception. */
  lemma AtLeastOnceWhenCareful(actions: seq<Action>, id: nat)
    requires CarefulRun(NewStream(), actions)
    requires var s := Run(NewStream(), actions); id in s.entries && s.entries[id].payload.Mail?
    ensures var s := Run(NewStream(), actions);
            var e := s.entries[id].payload.email;
            e in s.sent || e in s.dead || e in s.refused || exists i: nat :: Offers(s, i, e)
  {
    AtLeastOnce(actions, id);
    CarefulDropsNothing(NewStream(), actions);
  }

  /** With it an email can vanish: refused by the mail service, not dead-lettered, acknowledged. */
  lemma CarelessLosesMail() returns (actions: seq<Action>)
    ensures var s := Run(NewStream(), actions);
            && 0 in s.entries && s.entries[0].payload.Mail?
            && var e := s.entries[0].payload.email;
               e !in s.sent && e !in s.dead && e !in s.refused && forall i: nat :: !Offers(s, i, e)
  {
    hide RetryCount, Itoa, Failures;
    actions := [Enqueue(Some(("to", "subject", "body")), None), Take(0, 0), Send(0, Permanent), Add(0, NotAdded),
        Ack(0, true)];
    var s0 := NewStream();
    var s1 := Next(s0, actions[0]);
    var s2 := Next(s1, actions[1]);
    var s3 := Next(s2, actions[2]);
    var s4 := Next(s3, actions[3]);
    var s5 := Next(s4, actions[4]);
    assert Run(s4, actions[4..]) == s5;
    assert Run(s3, actions[3..]) == s5 by { assert actions[3..][1..] == actions[4..]; }
    assert Run(s2, actions[2..]) == s5 by { assert actions[2..][1..] == actions[3..]; }
    assert Run(s1, actions[1..]) == s5 by { assert actions[1..][1..] == actions[2..]; }
    assert Run(s0, actions) == s5;
  }

  // ---------------------------------------------------------------- bounded retries

  /** The retry count the producer's own entry started with. */
  ghost function Start(s: Stream, e: Email): (n: int) {
    if e.serial in s.entries then RetryCount(s.entries[e.serial]) else 0
  }

  ghost predicate EntryOk(s: Stream, id: nat)
    requires id in s.entries
  {
    match s.entries[id].payload
    case Invalid => true
    case Mail(e) =>
      && e.serial in s.entries
      && (id != e.serial ==> RetryCount(s.entries[id]) <= MAX_RETRIES)
      && RetryCount(s.entries[id]) <= Failures(s.failures, e) + Start(s, e)
  }

  /** A worker past a transient failure has seen one more failure than its entry admits. */
  ghost predicate TiredOk(s: Stream, w: nat)
    requires w in s.workers
  {
    && (At(s, w, Retrying) && EntryOf(s, w).payload.Mail? ==>
          var e := EntryOf(s, w).payload.email;
          RetryCount(EntryOf(s, w)) < MAX_RETRIES && RetryCount(EntryOf(s, w)) < Failures(s.failures, e) + Start(s, e))
    && (At(s, w, Retrying) ==> EntryOf(s, w).payload.Mail?)
    && (At(s, w, Burying) && EntryOf(s, w).payload.Mail? ==>
          MAX_RETRIES < Failures(s.failures, EntryOf(s, w).payload.email) + Start(s, EntryOf(s, w).payload.email))
  }

  ghost predicate PatienceOk(s: Stream) {
    && (forall id :: id in s.entries ==> id < s.nextId && EntryOk(s, id))
    && (forall w :: w in s.workers ==> TiredOk(s, w))
    && (forall e :: e in s.dead ==> e.serial in s.entries && MAX_RETRIES < Failures(s.failures, e) + Start(s, e))
  }

  /** Entries stay and failures only accumulate. */
  ghost predicate Ages(s: Stream, s': Stream) {
    && (forall id :: id in s.entries ==> id in s'.entries && s'.entries[id] == s.entries[id])
    && (forall e :: Failures(s.failures, e) <= Failures(s'.failures, e))
  }

  lemma AgeKeeps(s: Stream, s': Stream, moved: set<nat>)
    requires PatienceOk(s) && Ages(s, s')
    requires forall id :: id in s'.entries && id !in s.entries ==> EntryOk(s', id)
    requires forall id :: id in s'.entries ==> id < s'.nextId
    requires forall w :: w in s'.workers && w !in moved ==> w in s.workers && s'.workers[w] == s.workers[w]
    requires forall w :: w in s'.workers && w in moved ==> TiredOk(s', w)
    requires forall w :: w in s.workers ==> s.workers[w].id in s.entries
    requires forall e :: e in s'.dead && e !in s.dead ==>
             e.serial in s'.entries && MAX_RETRIES < Failures(s'.failures, e) + Start(s', e)
    ensures PatienceOk(s')
  {
    hide RetryCount, Failures;
    forall id | id in s.entries
      ensures EntryOk(s', id)
    {
      assert EntryOk(s, id);
    }
    forall w | w in s'.workers && w !in moved
      ensures TiredOk(s', w)
    {
      assert TiredOk(s, w) && s.workers[w].id in s.entries;
      assert EntryOk(s, s.workers[w].id);
    }
  }

  lemma HeldEntries(s: Stream)
    requires Inv(s)
    ensures forall w :: w in s.workers ==> s.workers[w].id in s.entries
  {
    forall w | w in s.workers
      ensures s.workers[w].id in s.entries
    {
      assert WorkerOk(s, w);
    }
  }

  lemma SendPatient(s: Stream, w: nat, reply: SendReply)
    requires Inv(s) && PatienceOk(s)
    ensures PatienceOk(SendMail(s, w, reply))
  {
    HeldEntries(s);
    SendFrame(s, w, reply);
    hide RetryCount, Inv;
    if At(s, w, Holding) {
      var s' := SendMail(s, w, reply);
      assert EntryOk(s, s.workers[w].id);
      assert Ages(s, s') && s'.dead == s.dead;
      assert w in s'.workers ==> TiredOk(s', w);
      hide SendMail, TiredOk, EntryOk, Failures;
      AgeKeeps(s, s', {w});
    }
  }

  lemma CopyPatient(s: Stream, w: nat)
    requires Inv(s) && PatienceOk(s) && At(s, w, Retrying)
    ensures var entry := EntryOf(s, w);
            PatienceOk(Append(s, entry.(retry := Some(Itoa(RetryCount(entry) + 1)))))
  {
    hide RetryCount, Inv, Itoa, Failures, TiredOk, EntryOk;
    HeldEntries(s);
    var entry := EntryOf(s, w);
    var copy := entry.(retry := Some(Itoa(RetryCount(entry) + 1)));
    CopiedEntryOk(s, w);
    AgeKeeps(s, Append(s, copy), {});
  }

  lemma CopyCounts(entry: Entry)
    requires RetryCount(entry) < MAX_RETRIES
    ensures RetryCount(entry.(retry := Some(Itoa(RetryCount(entry) + 1)))) == RetryCount(entry) + 1
  {
    hide Itoa, Atoi;
    RetryCountInRange(entry);
    AtoiOfItoa(RetryCount(entry) + 1);
  }

  lemma CopiedEntryOk(s: Stream, w: nat)
    requires PatienceOk(s) && At(s, w, Retrying)
    ensures s.nextId !in s.entries
    ensures var entry := EntryOf(s, w);
            EntryOk(Append(s, entry.(retry := Some(Itoa(RetryCount(entry) + 1)))), s.nextId)
  {
    hide RetryCount, Itoa, Failures;
    var entry := EntryOf(s, w);
    assert TiredOk(s, w) && EntryOk(s, s.workers[w].id);
    CopyCounts(entry);
  }

  lemma RetryCountInRange(entry: Entry)
    ensures -MAX_INT - 1 <= RetryCount(entry) <= MAX_INT
  {
  }

  lemma RetryPatient(s: Stream, w: nat, added: AddReply)
    requires Inv(s) && PatienceOk(s) && At(s, w, Retrying)
    ensures PatienceOk(AddEntry(s, w, added))
  {
    hide RetryCount, Itoa, Inv, PatienceOk;
    HeldEntries(s);
    var entry := EntryOf(s, w);
    var base := if added == NotAdded then s else Append(s, entry.(retry := Some(Itoa(RetryCount(entry) + 1))));
    CopyPatient(s, w);
    MovePatient(base, AddEntry(s, w, added), w);
  }

  /** Taking a worker away, or to a stage without a count, keeps everything. */
  lemma MovePatient(s: Stream, s': Stream, w: nat)
    requires PatienceOk(s) && forall x :: x in s.workers ==> s.workers[x].id in s.entries
    requires s'.entries == s.entries && s'.nextId == s.nextId && s'.failures == s.failures && s'.dead == s.dead
    requires forall x :: x in s'.workers && x != w ==> x in s.workers && s'.workers[x] == s.workers[x]
    requires w in s'.workers ==> s'.workers[w].stage != Retrying && s'.workers[w].stage != Burying
    ensures PatienceOk(s')
  {
    hide RetryCount, Failures, EntryOk;
    AgeKeeps(s, s', {w});
  }

  lemma LetterPatient(s: Stream, w: nat, added: AddReply)
    requires Inv(s) && PatienceOk(s) && (At(s, w, Burying) || At(s, w, Refusing))
    ensures PatienceOk(AddEntry(s, w, added))
  {
    hide RetryCount, Itoa, Inv, PatienceOk;
    HeldEntries(s);
    var s' := AddEntry(s, w, added);
    if s' == s {
      return;
    }
    if s'.dead == s.dead {
      MovePatient(s, s', w);
    } else {
      var e := EntryOf(s, w).payload.email;
      BuriedPatient(s, w);
      MovePatient(s.(dead := s.dead + {e}), s', w);
    }
  }

  lemma BuriedPatient(s: Stream, w: nat)
    requires PatienceOk(s) && At(s, w, Burying) && EntryOf(s, w).payload.Mail?
    requires forall x :: x in s.workers ==> s.workers[x].id in s.entries
    ensures PatienceOk(s.(dead := s.dead + {EntryOf(s, w).payload.email}))
  {
    hide RetryCount, Failures;
    assert TiredOk(s, w) && EntryOk(s, s.workers[w].id);
    AgeKeeps(s, s.(dead := s.dead + {EntryOf(s, w).payload.email}), {});
  }

  lemma AddPatient(s: Stream, w: nat, added: AddReply)
    requires Inv(s) && PatienceOk(s)
    ensures PatienceOk(AddEntry(s, w, added))
  {
    hide Inv, PatienceOk;
    if At(s, w, Retrying) {
      RetryPatient(s, w, added);
    } else if At(s, w, Burying) || At(s, w, Refusing) {
      LetterPatient(s, w, added);
    }
  }

  lemma EnqueuePatient(s: Stream, content: Option<(string, string, string)>, retry: Option<string>)
    requires Inv(s) && PatienceOk(s)
    ensures PatienceOk(Next(s, Enqueue(content, retry)))
  {
    HeldEntries(s);
    hide RetryCount, Inv;
    var s' := Next(s, Enqueue(content, retry));
    assert s.nextId !in s.entries;
    assert EntryOk(s', s.nextId);
    hide EntryOk, TiredOk, Failures;
    AgeKeeps(s, s', {});
  }

  lemma RestPatient(s: Stream, a: Action)
    requires Inv(s) && PatienceOk(s) && (a.Take? || a.Ack? || a.Crash?)
    ensures PatienceOk(Next(s, a))
  {
    hide RetryCount, Inv, PatienceOk;
    HeldEntries(s);
    if Next(s, a) != s {
      MovePatient(s, Next(s, a), a.worker);
    }
  }

  lemma {:induction false} RunPatient(s: Stream, actions: seq<Action>)
    requires Inv(s) && PatienceOk(s)
    ensures PatienceOk(Run(s, actions))
    decreases |actions|
  {
    hide Inv, PatienceOk;
    if actions != [] {
      match actions[0] {
        case Enqueue(content, retry) => EnqueuePatient(s, content, retry);
        case Send(w, reply) => SendPatient(s, w, reply);
        case Add(w, added) => AddPatient(s, w, added);
        case _ => RestPatient(s, actions[0]);
      }
      StepKeeps(s, actions[0]);
      hide Next;
      RunPatient(Next(s, actions[0]), actions[1..]);
    }
  }

  /** An entry that a worker added. */
  predicate Copied(s: Stream, id: nat)
    requires id in s.entries
  {
    s.entries[id].payload.Mail? && id != s.entries[id].payload.email.serial
  }

  /**
   Bounded retries: no entry that a worker adds counts more than five retries, and an email
   that was queued without a count is given up only after six failed attempts.
   */
  lemma RetriesAreBounded(actions: seq<Action>)
    ensures var s := Run(NewStream(), actions);
            && (forall id :: id in s.entries && Copied(s, id) ==> RetryCount(s.entries[id]) <= MAX_RETRIES)
            && (forall e :: e in s.dead ==>
                  && e.serial in s.entries
                  && (s.entries[e.serial].retry.None? ==> Failures(s.failures, e) >= 6))
  {
    NewStreamOk();
    RunPatient(NewStream(), actions);
    var s := Run(NewStream(), actions);
    forall id | id in s.entries && s.entries[id].payload.Mail?
      ensures EntryOk(s, id)
    {
    }
  }

  // ---------------------------------------------------------------- what an outcome needs

  /** The step is that reply of the mail service to an entry that carries the email. */
  predicate Answers(s: Stream, a: Action, e: Email, reply: SendReply) {
    a.Send? && a.reply == reply && At(s, a.worker, Holding) && EntryOf(s, a.worker).payload == Mail(e)
  }

  /** How often the mail service gave that reply about the email, along a run. */
  function Replies(s: Stream, actions: seq<Action>, e: Email, reply: SendReply): (n: nat)
    decreases |actions|
  {
    if actions == [] then 0 else
    (if Answers(s, actions[0], e, reply) then 1 else 0) + Replies(Next(s, actions[0]), actions[1..], e, reply)
  }

  /** Some worker is on its way to record that outcome for the email. */
  ghost predicate Heading(s: Stream, e: Email, stage: Stage) {
    exists w :: At(s, w, stage) && EntryOf(s, w).payload == Mail(e)
  }

  ghost predicate TurnedDown(s: Stream, e: Email) {
    e in s.refused || e in s.dropped || Heading(s, e, Refusing)
  }

  ghost predicate GivenUp(s: Stream, e: Email) {
    e in s.dead || Heading(s, e, Burying)
  }

  /** Nobody comes to a stage but by the reply that leads there. */
  lemma HeadingNeeds(s: Stream, a: Action, e: Email, stage: Stage)
    requires Inv(s) && (stage == Refusing || stage == Burying) && Heading(Next(s, a), e, stage)
    ensures Heading(s, e, stage) || Answers(s, a, e, if stage == Refusing then Permanent else Transient)
  {
    hide RetryCount, Itoa, Inv, Failures;
    HeldEntries(s);
    NextIdIsNew(s);
    var s' := Next(s, a);
    var w :| At(s', w, stage) && EntryOf(s', w).payload == Mail(e);
    if w in s.workers && s'.workers[w] == s.workers[w] {
      assert At(s, w, stage) && EntryOf(s, w).payload == Mail(e);
    }
  }

  lemma NextIdIsNew(s: Stream)
    requires Inv(s)
    ensures s.nextId !in s.entries
  {
    hide WorkerOk, Covered;
  }

  lemma StepNeeds(s: Stream, a: Action, e: Email)
    requires Inv(s)
    ensures TurnedDown(Next(s, a), e) ==> TurnedDown(s, e) || Answers(s, a, e, Permanent)
    ensures GivenUp(Next(s, a), e) ==> GivenUp(s, e) || Answers(s, a, e, Transient)
    ensures e in Next(s, a).sent ==> e in s.sent || Answers(s, a, e, Delivered)
    ensures Failures(Next(s, a).failures, e) == Failures(s.failures, e) + if Answers(s, a, e, Transient) then 1 else 0
  {
    hide RetryCount, Itoa, Inv;
    if Heading(Next(s, a), e, Refusing) {
      HeadingNeeds(s, a, e, Refusing);
    }
    if Heading(Next(s, a), e, Burying) {
      HeadingNeeds(s, a, e, Burying);
    }
  }

  lemma {:induction false} RunNeeds(s: Stream, actions: seq<Action>, e: Email)
    requires Inv(s)
    ensures TurnedDown(Run(s, actions), e) ==> TurnedDown(s, e) || Replies(s, actions, e, Permanent) > 0
    ensures GivenUp(Run(s, actions), e) ==> GivenUp(s, e) || Replies(s, actions, e, Transient) > 0
    ensures e in Run(s, actions).sent ==> e in s.sent || Replies(s, actions, e, Delivered) > 0
    ensures Failures(Run(s, actions).failures, e) == Failures(s.failures, e) + Replies(s, actions, e, Transient)
    decreases |actions|
  {
    hide Inv, Next, TurnedDown, GivenUp, Answers, Failures;
    if actions != [] {
      StepNeeds(s, actions[0], e);
      StepKeeps(s, actions[0]);
      RunNeeds(Next(s, actions[0]), actions[1..], e);
    }
  }

  /**
   In every run an email is sent only after a delivery, refused or dropped only after a permanent
   failure, and given up, if it was queued without a count, only after six transient ones.
   */
  lemma OutcomesAreEarned(actions: seq<Action>, e: Email)
    ensures var s := Run(NewStream(), actions);
            && (e in s.sent ==> Replies(NewStream(), actions, e, Delivered) > 0)
            && (e in s.refused || e in s.dropped ==> Replies(NewStream(), actions, e, Permanent) > 0)
            && (e in s.dead ==>
                  && e.serial in s.entries
                  && (s.entries[e.serial].retry.None? ==> Replies(NewStream(), actions, e, Transient) >= 6))
  {
    hide Inv, Run, Replies;
    NewStreamOk();
    assert !Heading(NewStream(), e, Refusing);
    RunNeeds(NewStream(), actions, e);
    RetriesAreBounded(actions);
  }

  /** Without an API key nothing happens to the stream: the email stays offered to other workers. */
  lemma NoKeyLeavesMail(s: Stream, w: nat)
    requires At(s, w, Holding) && EntryOf(s, w).payload.Mail?
    ensures var s' := Next(s, Send(w, NoApiKey));
            && s' == s.(workers := s.workers - {w})
            && forall id, e :: Offers(s', id, e) <==> Offers(s, id, e)
  {
  }

  // ---------------------------------------------------------------- the worker's own code

  /** One undisturbed call of processMessage: four steps, of which some do not apply and change nothing. */
  function Processed(s: Stream, w: nat, id: nat, reply: SendReply, added: AddReply, acked: bool): (s': Stream) {
    Next(Next(Next(Next(s, Take(w, id)), Send(w, reply)), Add(w, added)), Ack(w, acked))
  }

  function Acked(s: Stream, id: nat, applied: bool): (s': Stream) {
    s.(acked := if applied then s.acked + {id} else s.acked)
  }

  /** The same call in one piece. */
  function Handled(s: Stream, id: nat, reply: SendReply, added: AddReply, acked: bool): (s': Stream)
    requires id in s.entries
  {
    match s.entries[id].payload
    case Invalid => Acked(s, id, acked)
    case Mail(e) =>
      match reply
      case NoApiKey => s
      case Delivered => Acked(s.(sent := s.sent + {e}), id, acked)
      case Permanent =>
        Acked(if added == NotAdded then s.(dropped := s.dropped + {e}) else s.(refused := s.refused + {e}), id, acked)
      case Transient =>
        var failed := s.(failures := s.failures[e := Failures(s.failures, e) + 1]);
        var entry := s.entries[id];
        if RetryCount(entry) < 0 then failed else
        var moved := if added == NotAdded then failed
                     else if RetryCount(entry) >= MAX_RETRIES then failed.(dead := failed.dead + {e})
                     else Append(failed, entry.(retry := Some(Itoa(RetryCount(entry) + 1))));
        if added == Added then Acked(moved, id, acked) else moved
  }

  function With(s: Stream, w: nat, id: nat, stage: Stage): (s': Stream) {
    s.(workers := s.workers[w := Worker(id, stage)])
  }

  lemma PutBack(s: Stream, w: nat, id: nat, stage: Stage)
    requires w !in s.workers
    ensures Idle(With(s, w, id, stage), w) == s
  {
    assert s.workers[w := Worker(id, stage)] - {w} == s.workers;
  }

  lemma AckWith(s: Stream, w: nat, id: nat, applied: bool)
    requires w !in s.workers && id in s.entries
    ensures Acknowledge(With(s, w, id, Acking), w, applied) == Acked(s, id, applied)
  {
    PutBack(Acked(s, id, applied), w, id, Acking);
  }

  lemma AddWith(s: Stream, w: nat, id: nat, added: AddReply, acked: bool)
    requires w !in s.workers && id in s.entries && s.entries[id].payload.Mail?
    ensures var entry := s.entries[id];
            var copied := Append(s, entry.(retry := Some(Itoa(RetryCount(entry) + 1))));
            AddEntry(With(s, w, id, Retrying), w, added) ==
            if added == NotAdded then s else if added == Added then With(copied, w, id, Acking) else copied
    ensures var buried := s.(dead := s.dead + {s.entries[id].payload.email});
            AddEntry(With(s, w, id, Burying), w, added) ==
            if added == NotAdded then s else if added == Added then With(buried, w, id, Acking) else buried
  {
    hide RetryCount, Itoa;
    PutBack(s, w, id, Retrying);
    PutBack(s, w, id, Burying);
    PutBack(s.(dead := s.dead + {s.entries[id].payload.email}), w, id, Burying);
    PutBack(Append(s, s.entries[id].(retry := Some(Itoa(RetryCount(s.entries[id]) + 1)))), w, id, Retrying);
    var again := s.workers[w := Worker(id, Retrying)][w := Worker(id, Acking)];
    assert again == s.workers[w := Worker(id, Acking)];
    var again' := s.workers[w := Worker(id, Burying)][w := Worker(id, Acking)];
    assert again' == s.workers[w := Worker(id, Acking)];
  }

  /** What a transient failure does to the worker that saw it. */
  lemma FailWith(s: Stream, w: nat, id: nat)
    requires w !in s.workers && id in s.entries && s.entries[id].payload.Mail?
    ensures var e := s.entries[id].payload.email;
            var failed := s.(failures := s.failures[e := Failures(s.failures, e) + 1]);
            var count := RetryCount(s.entries[id]);
            SendMail(With(s, w, id, Holding), w, Transient) ==
            if count < 0 then failed else With(failed, w, id, if count >= MAX_RETRIES then Burying else Retrying)
  {
    hide RetryCount, Failures;
    var e := s.entries[id].payload.email;
    PutBack(s.(failures := s.failures[e := Failures(s.failures, e) + 1]), w, id, Holding);
    Restage(s, w, id, Holding, Burying);
    Restage(s, w, id, Holding, Retrying);
  }

  lemma TransientSteps(s: Stream, w: nat, id: nat, added: AddReply, acked: bool)
    requires w !in s.workers && id in s.entries && id !in s.acked && s.entries[id].payload.Mail?
    ensures Processed(s, w, id, Transient, added, acked) == Handled(s, id, Transient, added, acked)
  {
    hide RetryCount, Itoa, AddEntry, Acknowledge, SendMail, With;
    var e := s.entries[id].payload.email;
    var failed := s.(failures := s.failures[e := Failures(s.failures, e) + 1]);
    TakenIs(s, w, id);
    FailWith(s, w, id);
    if RetryCount(s.entries[id]) < 0 {
      IdleAdd(failed, w, added);
      IdleAck(failed, w, acked);
      return;
    }
    var stage := if RetryCount(s.entries[id]) >= MAX_RETRIES then Burying else Retrying;
    AddWith(failed, w, id, added, acked);
    var moved := if added == NotAdded then failed
                 else if stage == Burying then failed.(dead := failed.dead + {e})
                 else Append(failed, s.entries[id].(retry := Some(Itoa(RetryCount(s.entries[id]) + 1))));
    AckWith(moved, w, id, acked);
    IdleAck(moved, w, acked);
  }

  lemma IdleAck(s: Stream, w: nat, applied: bool)
    requires w !in s.workers
    ensures Acknowledge(s, w, applied) == s
  {
  }

  lemma IdleAdd(s: Stream, w: nat, added: AddReply)
    requires w !in s.workers
    ensures AddEntry(s, w, added) == s
  {
  }

  /** An entry with a negative count is never copied, buried or acknowledged by a transient failure. */
  lemma NegativeCountPanics(s: Stream, w: nat)
    requires At(s, w, Holding) && EntryOf(s, w).payload.Mail? && RetryCount(EntryOf(s, w)) < 0
    ensures var s' := Next(s, Send(w, Transient));
            w !in s'.workers && s'.entries == s.entries && s'.acked == s.acked && s'.dead == s.dead
  {
  }

  lemma OtherSteps(s: Stream, w: nat, id: nat, reply: SendReply, added: AddReply, acked: bool)
    requires w !in s.workers && id in s.entries && id !in s.acked
    requires s.entries[id].payload.Mail? ==> reply != Transient
    ensures Processed(s, w, id, reply, added, acked) == Handled(s, id, reply, added, acked)
  {
    hide RetryCount, Itoa, Acknowledge, With;
    var held := With(s, w, id, Holding);
    TakenIs(s, w, id);
    if s.entries[id].payload.Invalid? {
      AnswerWith(s, s, w, id, reply);
      AckWith(s, w, id, acked);
    } else {
      var e := s.entries[id].payload.email;
      match reply {
        case NoApiKey =>
          PutBack(s, w, id, Holding);
          IdleAck(s, w, acked);
        case Delivered =>
          var s' := s.(sent := s.sent + {e});
          AnswerWith(s, s', w, id, reply);
          AckWith(s', w, id, acked);
        case Permanent =>
          var s' := if added == NotAdded then s.(dropped := s.dropped + {e}) else s.(refused := s.refused + {e});
          RefuseWith(s, w, id, added);
          AckWith(s', w, id, acked);
      }
    }
  }

  lemma TakenIs(s: Stream, w: nat, id: nat)
    requires w !in s.workers && id in s.entries && id !in s.acked
    ensures Next(s, Take(w, id)) == With(s, w, id, Holding)
  {
  }

  lemma Restage(s: Stream, w: nat, id: nat, stage: Stage, stage': Stage)
    ensures s.workers[w := Worker(id, stage)][w := Worker(id, stage')] == s.workers[w := Worker(id, stage')]
  {
  }

  lemma AnswerWith(s: Stream, s': Stream, w: nat, id: nat, reply: SendReply)
    requires w !in s.workers && id in s.entries
    requires match s.entries[id].payload
             case Invalid => s' == s
             case Mail(e) => reply == Delivered && s' == s.(sent := s.sent + {e})
    ensures SendMail(With(s, w, id, Holding), w, reply) == With(s', w, id, Acking)
    ensures forall added :: AddEntry(With(s', w, id, Acking), w, added) == With(s', w, id, Acking)
  {
    hide RetryCount, Itoa;
    Restage(s, w, id, Holding, Acking);
  }

  lemma RefuseWith(s: Stream, w: nat, id: nat, added: AddReply)
    requires w !in s.workers && id in s.entries && s.entries[id].payload.Mail?
    ensures var e := s.entries[id].payload.email;
            AddEntry(SendMail(With(s, w, id, Holding), w, Permanent), w, added) ==
            With(if added == NotAdded then s.(dropped := s.dropped + {e}) else s.(refused := s.refused + {e}), w, id,
                Acking)
  {
    hide RetryCount, Itoa;
    Restage(s, w, id, Holding, Refusing);
    Restage(s, w, id, Refusing, Acking);
  }

  // ---------------------------------------------------------------- giving up

  /** Undisturbed calls that keep failing: on the entry, then on each copy, until none is made. */
  function Exhaust(s: Stream, id: nat): (s': Stream)
    requires id in s.entries
    decreases MAX_RETRIES - RetryCount(s.entries[id])
  {
    var once := Handled(s, id, Transient, Added, true);
    if 0 <= RetryCount(s.entries[id]) < MAX_RETRIES && s.entries[id].payload.Mail? then
      CopyIsNext(s, id);
      Exhaust(once, s.nextId)
    else once
  }

  /** After a transient failure the next entry carries the same email and one more retry. */
  lemma CopyIsNext(s: Stream, id: nat)
    requires id in s.entries && s.entries[id].payload.Mail? && 0 <= RetryCount(s.entries[id]) < MAX_RETRIES
    ensures var s' := Handled(s, id, Transient, Added, true);
            && s.nextId in s'.entries && s'.entries[s.nextId].payload == s.entries[id].payload
            && RetryCount(s'.entries[s.nextId]) == RetryCount(s.entries[id]) + 1
            && id in s'.acked
  {
    hide RetryCount, Itoa;
    CopyCounts(s.entries[id]);
  }

  /** An email that fails every time is dead-lettered after at most six attempts. */
  lemma {:induction false} FailingMailIsGivenUp(s: Stream, id: nat)
    requires id in s.entries && s.entries[id].payload.Mail? && RetryCount(s.entries[id]) >= 0
    ensures s.entries[id].payload.email in Exhaust(s, id).dead
    decreases MAX_RETRIES - RetryCount(s.entries[id])
  {
    hide RetryCount, Itoa, Handled;
    if RetryCount(s.entries[id]) < MAX_RETRIES {
      CopyIsNext(s, id);
      FailingMailIsGivenUp(Handled(s, id, Transient, Added, true), s.nextId);
    } else {
      LastIsBuried(s, id);
    }
  }

  lemma LastIsBuried(s: Stream, id: nat)
    requires id in s.entries && s.entries[id].payload.Mail? && RetryCount(s.entries[id]) >= MAX_RETRIES
    ensures var s' := Handled(s, id, Transient, Added, true);
            s.entries[id].payload.email in s'.dead && s'.entries == s.entries && id in s'.acked
  {
    hide RetryCount, Itoa;
  }

  class EmailWorker {
    var entries: map<nat, Entry>
    var nextId: nat
    var acked: set<nat>
    var workers: map<nat, Worker>
    var sent: set<Email>
    var dead: set<Email>
    var refused: set<Email>
    var dropped: set<Email>
    var failures: map<Email, nat>

    ghost function View(): (s: Stream)
      reads this
    {
      Stream(entries, nextId, acked, workers, sent, dead, refused, dropped, failures)
    }

    constructor ()
      ensures View() == NewStream()
    {
      entries, nextId, acked, workers := map[], 0, {}, map[];
      sent, dead, refused, dropped, failures := {}, {}, {}, {}, map[];
    }

    method XAck(id: nat, applied: bool)
      modifies this`acked
      ensures acked == if applied then old(acked) + {id} else old(acked)
    {
      if applied {
        acked := acked + {id};
      }
    }

    /**
     reenqueueWithBackoff; the boolean says whether the entry may be acknowledged. The shift that
     computes the delay panics on a negative count.
     */
    method Reenqueue(entry: Entry, added: AddReply) returns (done: bool)
      modifies this`entries, this`nextId
      ensures View() == if RetryCount(entry) < 0 || added == NotAdded then old(View())
                        else Append(old(View()), entry.(retry := Some(Itoa(RetryCount(entry) + 1))))
      ensures done <==> RetryCount(entry) >= 0 && added == Added
    {
      hide RetryCount, Itoa;
      if RetryCount(entry) < 0 {
        return false;
      }
      if added != NotAdded {
        entries := entries[nextId := entry.(retry := Some(Itoa(RetryCount(entry) + 1)))];
        nextId := nextId + 1;
      }
      done := added == Added;
    }

    /** moveToDeadLetter up to its acknowledgement. */
    method MoveToDeadLetter(e: Email, added: AddReply) returns (done: bool)
      modifies this`dead
      ensures dead == if added == NotAdded then old(dead) else old(dead) + {e}
      ensures done == (added == Added)
    {
      if added != NotAdded {
        dead := dead + {e};
      }
      done := added == Added;
    }

    /** handleSendFailure for a transient error, then handleRetry. */
    method HandleTransientFailure(id: nat, added: AddReply, ackApplied: bool)
      requires id in entries && entries[id].payload.Mail?
      modifies this
      ensures View() == Handled(old(View()), id, Transient, added, ackApplied)
    {
      hide RetryCount, Itoa;
      var entry := entries[id];
      var e := entry.payload.email;
      failures := failures[e := Failures(failures, e) + 1];
      var done;
      if RetryCount(entry) >= MAX_RETRIES {
        done := MoveToDeadLetter(e, added);
      } else {
        done := Reenqueue(entry, added);
      }
      if done {
        XAck(id, ackApplied);
      }
    }

    /** handleSendFailure for a permanent error: the acknowledgement does not depend on the add. */
    method HandlePermanentFailure(id: nat, added: AddReply, ackApplied: bool)
      requires id in entries && entries[id].payload.Mail?
      modifies this
      ensures View() == Handled(old(View()), id, Permanent, added, ackApplied)
    {
      hide RetryCount, Itoa;
      var e := entries[id].payload.email;
      if added == NotAdded {
        dropped := dropped + {e};
      } else {
        refused := refused + {e};
      }
      XAck(id, ackApplied);
    }

    /** processMessage, with the answers of the mail service and of Redis as inputs. */
    method ProcessMessage(w: nat, id: nat, reply: SendReply, added: AddReply, ackApplied: bool)
      requires w !in workers && id in entries && id !in acked
      modifies this
      ensures View() == Processed(old(View()), w, id, reply, added, ackApplied)
      ensures old(entries)[id].payload.Mail? && reply == NoApiKey ==> View() == old(View())
      ensures sent != old(sent) ==> reply == Delivered
      ensures dead != old(dead) ==> reply == Transient
      ensures refused != old(refused) || dropped != old(dropped) ==> reply == Permanent
      ensures old(entries)[id].payload.Mail? && acked != old(acked) ==>
                || old(entries)[id].payload.email in sent + dead + refused + dropped
                || (old(nextId) in entries && entries[old(nextId)].payload == old(entries)[id].payload)
    {
      hide RetryCount, Itoa, Processed;
      var entry := entries[id];
      if entry.payload.Mail? && reply == Transient {
        TransientSteps(View(), w, id, added, ackApplied);
        HandleTransientFailure(id, added, ackApplied);
        return;
      }
      OtherSteps(View(), w, id, reply, added, ackApplied);
      if entry.payload.Invalid? {
        XAck(id, ackApplied);
      } else if reply == Delivered {
        sent := sent + {entry.payload.email};
        XAck(id, ackApplied);
      } else if reply == Permanent {
        HandlePermanentFailure(id, added, ackApplied);
      }
    }
  }
}
