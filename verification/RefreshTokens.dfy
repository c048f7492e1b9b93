/**
 Refresh tokens (backend/internal/auth/token_lifecycle.go and RefreshSession in auth.go).

 The store is three Redis key spaces with expiry times: tokens, reuse markers, and one set
 of tokens per user. Each script or transaction is one atomic function of the store and the
 clock. Tokens are the values generateSecureToken yields, so a new one was never issued before.
 */
module RefreshTokens {
  import opened Prelude

  datatype Token = Token(hex: string)
  datatype User = User(id: string)

  /** Seven days in milliseconds. */
  const TTL := 7 * 24 * 3600 * 1000

  datatype Entry = Entry(user: User, expiry: int)
  datatype Index = Index(members: set<Token>, expiry: int)
  datatype Store = Store(tokens: map<Token, Entry>, reuse: map<Token, Entry>, index: map<User, Index>)

  datatype Outcome = Valid(user: User) | Reused(user: User) | Missing

  // ---------------------------------------------------------------- atomic operations

  /** GET: an expired key is as good as gone. */
  function Look(entries: map<Token, Entry>, t: Token, now: int): (e: Option<Entry>) {
    if t in entries && now < entries[t].expiry then Some(entries[t]) else None
  }

  /** SMEMBERS. */
  function Members(index: map<User, Index>, u: User, now: int): (ts: set<Token>) {
    if u in index && now < index[u].expiry then index[u].members else {}
  }

  /** The MULTI/EXEC of Generate: SET, SADD, EXPIRE. */
  function Generate(s: Store, u: User, t: Token, now: int): (s': Store) {
    s.(tokens := s.tokens[t := Entry(u, now + TTL)],
       index := s.index[u := Index(Members(s.index, u, now) + {t}, now + TTL)])
  }

  /** consumeRefreshTokenScript. */
  function Consume(s: Store, t: Token, now: int): (r: (Store, Outcome)) {
    match Look(s.tokens, t, now)
    case Some(e) => (s.(tokens := s.tokens - {t}, reuse := s.reuse[t := Entry(e.user, now + TTL)]), Valid(e.user))
    case None =>
      match Look(s.reuse, t, now)
      case Some(e) => (s, Reused(e.user))
      case None => (s, Missing)
  }

  /** RemoveFromUserSet: SREM, nothing when the set has expired. */
  function Unlist(s: Store, u: User, t: Token, now: int): (s': Store) {
    if u in s.index && now < s.index[u].expiry
    then s.(index := s.index[u := s.index[u].(members := s.index[u].members - {t})]) else s
  }

  function Revoke(s: Store, t: Token): (s': Store) {
    s.(tokens := s.tokens - {t})
  }

  /** revokeAllForUserScript. */
  function RevokeAll(s: Store, u: User, now: int): (s': Store) {
    s.(tokens := s.tokens - Members(s.index, u, now), index := s.index - {u})
  }

  // ---------------------------------------------------------------- the system around the store

  /** Where a RefreshSession call stands between its commands. */
  datatype Session = Consumed(user: User, token: Token) | Cleared(user: User) | Compromised(user: User)

  datatype Event =
    | Issued(token: Token, user: User, at: int)
    | Tried(token: Token, at: int, outcome: Outcome)
    | Revoked(token: Token)
    | RevokedAll(user: User)

  datatype System = System(now: int, store: Store, sessions: map<nat, Session>, log: seq<Event>)

  /**
   A command may take effect although its caller sees an error (`answered` false); a command
   that had no effect is a step that did not happen. Begin to Abort are RefreshSession's own.
   */
  datatype Action =
    | Wait(ms: nat)
    | Issue(user: User, token: Token)
    | Try(token: Token)
    | Withdraw(token: Token)
    | WithdrawAll(user: User)
    | Begin(session: nat, token: Token, answered: bool)
    | Clear(session: nat, applied: bool)
    | Renew(session: nat, token: Token)
    | Punish(session: nat)
    | Abort(session: nat)

  function Note(y: System, s: Store, e: Event): (y': System) {
    y.(store := s, log := y.log + [e])
  }

  function IssueTo(y: System, u: User, t: Token): (y': System) {
    Note(y, Generate(y.store, u, t, y.now), Issued(t, u, y.now))
  }

  function TryOut(y: System, t: Token): (y': System) {
    var r := Consume(y.store, t, y.now);
    Note(y, r.0, Tried(t, y.now, r.1))
  }

  function DropAll(y: System, u: User): (y': System) {
    Note(y, RevokeAll(y.store, u, y.now), RevokedAll(u))
  }

  /** An empty user id is refused after the token is already spent. */
  function NextStage(outcome: Outcome, t: Token): (s: Option<Session>) {
    match outcome
    case Valid(u) => if u.id == "" then None else Some(Consumed(u, t))
    case Reused(u) => if u.id == "" then None else Some(Compromised(u))
    case Missing => None
  }

  function Put(sessions: map<nat, Session>, c: nat, stage: Option<Session>): (sessions': map<nat, Session>) {
    if stage.Some? then sessions[c := stage.value] else sessions - {c}
  }

  function Next(y: System, a: Action): (y': System) {
    match a
    case Wait(ms) => y.(now := y.now + ms)
    case Issue(u, t) => IssueTo(y, u, t)
    case Try(t) => TryOut(y, t)
    case Withdraw(t) => Note(y, Revoke(y.store, t), Revoked(t))
    case WithdrawAll(u) => DropAll(y, u)
    case Begin(c, t, answered) =>
      if c in y.sessions then y else
      var stage := if answered then NextStage(Consume(y.store, t, y.now).1, t) else None;
      TryOut(y, t).(sessions := Put(y.sessions, c, stage))
    case Clear(c, applied) =>
      if c !in y.sessions || !y.sessions[c].Consumed? then y else
      var s := y.sessions[c];
      y.(store := if applied then Unlist(y.store, s.user, s.token, y.now) else y.store,
         sessions := y.sessions[c := Cleared(s.user)])
    case Renew(c, t) =>
      if c !in y.sessions || !y.sessions[c].Cleared? then y
      else IssueTo(y, y.sessions[c].user, t).(sessions := y.sessions - {c})
    case Punish(c) =>
      if c !in y.sessions || !y.sessions[c].Compromised? then y
      else DropAll(y, y.sessions[c].user).(sessions := y.sessions - {c})
    case Abort(c) => y.(sessions := y.sessions - {c})
  }

  function Run(y: System, actions: seq<Action>): (y': System)
    decreases |actions|
  {
    if actions == [] then y else Run(Next(y, actions[0]), actions[1..])
  }

  function NewSystem(now: int): (y: System) {
    System(now, Store(map[], map[], map[]), map[], [])
  }

  // ---------------------------------------------------------------- the history of a token

  /** What the history of commands alone says about a token. */
  datatype Status = Unknown | Active(user: User, expiry: int) | Used(user: User, expiry: int) | Gone(user: User)

  function After(s: Status, e: Event, t: Token): (s': Status) {
    match e
    case Issued(t', u, at) => if t' == t then Active(u, at + TTL) else s
    case Tried(t', at, _) => if t' == t && s.Active? && at < s.expiry then Used(s.user, at + TTL) else s
    case Revoked(t') => if t' == t && s.Active? then Gone(s.user) else s
    case RevokedAll(u) => if s.Active? && s.user == u then Gone(u) else s
  }

  function History(log: seq<Event>, t: Token): (s: Status) {
    if log == [] then Unknown else After(History(log[..|log| - 1], t), log[|log| - 1], t)
  }

  lemma HistoryAppend(log: seq<Event>, e: Event, t: Token)
    ensures History(log + [e], t) == After(History(log, t), e, t)
  {
    assert (log + [e])[..|log|] == log;
  }

  /** The answer a token deserves. */
  function Deserved(s: Status, now: int): (o: Outcome) {
    if s.Active? && now < s.expiry then Valid(s.user)
    else if s.Used? && now < s.expiry then Reused(s.user)
    else Missing
  }

  function ActiveEntry(s: Status, now: int): (e: Option<Entry>) {
    if s.Active? && now < s.expiry then Some(Entry(s.user, s.expiry)) else None
  }

  function UsedEntry(s: Status, now: int): (e: Option<Entry>) {
    if s.Used? && now < s.expiry then Some(Entry(s.user, s.expiry)) else None
  }

  // ---------------------------------------------------------------- the invariant

  /** Tokens and markers are what their history says. */
  ghost predicate TokenOk(s: Store, log: seq<Event>, t: Token, now: int) {
    && Look(s.tokens, t, now) == ActiveEntry(History(log, t), now)
    && Look(s.reuse, t, now) == UsedEntry(History(log, t), now)
  }

  /** A live token is in its owner's set, and that set outlives it. */
  ghost predicate ListedOk(s: Store, t: Token, now: int) {
    match Look(s.tokens, t, now)
    case None => true
    case Some(e) =>
      t in Members(s.index, e.user, now) && e.expiry <= s.index[e.user].expiry && e.expiry <= now + TTL
  }

  /** Sets hold only tokens that were issued to their user. */
  ghost predicate OwnedOk(s: Store, log: seq<Event>, u: User, t: Token, now: int) {
    t in Members(s.index, u, now) ==> !History(log, t).Unknown? && History(log, t).user == u
  }

  ghost predicate StoreOk(s: Store, log: seq<Event>, now: int) {
    && (forall t :: TokenOk(s, log, t, now))
    && (forall t :: ListedOk(s, t, now))
    && (forall u, t :: OwnedOk(s, log, u, t, now))
  }

  /** A session that still has to clear its old token holds one that is spent. */
  ghost predicate SessionsOk(sessions: map<nat, Session>, log: seq<Event>) {
    forall c :: c in sessions && sessions[c].Consumed? ==> History(log, sessions[c].token).Used?
  }

  ghost predicate Inv(y: System) {
    StoreOk(y.store, y.log, y.now) && SessionsOk(y.sessions, y.log)
  }

  ghost predicate NewToken(log: seq<Event>, t: Token) {
    History(log, t).Unknown?
  }

  /** Only Issue and Renew bring tokens into the world, and those are new. */
  ghost predicate Sound(y: System, a: Action) {
    && (a.Issue? ==> NewToken(y.log, a.token))
    && (a.Renew? ==> NewToken(y.log, a.token))
  }

  ghost predicate SoundRun(y: System, actions: seq<Action>)
    decreases |actions|
  {
    actions != [] ==> Sound(y, actions[0]) && SoundRun(Next(y, actions[0]), actions[1..])
  }

  // ---------------------------------------------------------------- each operation keeps it

  lemma WaitKeeps(s: Store, log: seq<Event>, now: int, later: int)
    requires StoreOk(s, log, now) && now <= later
    ensures StoreOk(s, log, later)
  {
    forall t
      ensures TokenOk(s, log, t, later) && ListedOk(s, t, later)
    {
      assert TokenOk(s, log, t, now) && ListedOk(s, t, now);
    }
    forall u, t
      ensures OwnedOk(s, log, u, t, later)
    {
      assert OwnedOk(s, log, u, t, now);
    }
  }

  lemma IssueKeeps(s: Store, log: seq<Event>, u: User, t: Token, now: int)
    requires StoreOk(s, log, now) && NewToken(log, t)
    ensures StoreOk(Generate(s, u, t, now), log + [Issued(t, u, now)], now)
  {
    hide History;
    var s', log' := Generate(s, u, t, now), log + [Issued(t, u, now)];
    forall x
      ensures TokenOk(s', log', x, now) && ListedOk(s', x, now)
    {
      HistoryAppend(log, Issued(t, u, now), x);
      assert TokenOk(s, log, x, now) && ListedOk(s, x, now);
    }
    forall v, x
      ensures OwnedOk(s', log', v, x, now)
    {
      HistoryAppend(log, Issued(t, u, now), x);
      assert OwnedOk(s, log, v, x, now);
    }
  }

  lemma TryKeeps(s: Store, log: seq<Event>, t: Token, now: int)
    requires StoreOk(s, log, now)
    ensures var r := Consume(s, t, now); StoreOk(r.0, log + [Tried(t, now, r.1)], now)
  {
    hide History;
    var s', e := Consume(s, t, now).0, Tried(t, now, Consume(s, t, now).1);
    assert TokenOk(s, log, t, now);
    forall x
      ensures TokenOk(s', log + [e], x, now) && ListedOk(s', x, now)
    {
      HistoryAppend(log, e, x);
      assert TokenOk(s, log, x, now) && ListedOk(s, x, now);
    }
    forall v, x
      ensures OwnedOk(s', log + [e], v, x, now)
    {
      HistoryAppend(log, e, x);
      assert OwnedOk(s, log, v, x, now);
    }
  }

  lemma RevokeKeeps(s: Store, log: seq<Event>, t: Token, now: int)
    requires StoreOk(s, log, now)
    ensures StoreOk(Revoke(s, t), log + [Revoked(t)], now)
  {
    hide History;
    var s' := Revoke(s, t);
    forall x
      ensures TokenOk(s', log + [Revoked(t)], x, now) && ListedOk(s', x, now)
    {
      HistoryAppend(log, Revoked(t), x);
      assert TokenOk(s, log, x, now) && ListedOk(s, x, now);
    }
    forall v, x
      ensures OwnedOk(s', log + [Revoked(t)], v, x, now)
    {
      HistoryAppend(log, Revoked(t), x);
      assert OwnedOk(s, log, v, x, now);
    }
  }

  /** The script deletes exactly the live tokens of its user. */
  lemma RevokeAllLooks(s: Store, log: seq<Event>, u: User, x: Token, now: int)
    requires StoreOk(s, log, now)
    ensures Look(RevokeAll(s, u, now).tokens, x, now) ==
            match Look(s.tokens, x, now)
            case None => None
            case Some(e) => if e.user == u then None else Some(e)
  {
    hide History;
    assert TokenOk(s, log, x, now) && ListedOk(s, x, now) && OwnedOk(s, log, u, x, now);
  }

  lemma RevokeAllKeeps(s: Store, log: seq<Event>, u: User, now: int)
    requires StoreOk(s, log, now)
    ensures StoreOk(RevokeAll(s, u, now), log + [RevokedAll(u)], now)
  {
    hide History;
    var s' := RevokeAll(s, u, now);
    forall x
      ensures TokenOk(s', log + [RevokedAll(u)], x, now) && ListedOk(s', x, now)
    {
      HistoryAppend(log, RevokedAll(u), x);
      RevokeAllLooks(s, log, u, x, now);
      assert TokenOk(s, log, x, now) && ListedOk(s, x, now);
    }
    forall v, x
      ensures OwnedOk(s', log + [RevokedAll(u)], v, x, now)
    {
      HistoryAppend(log, RevokedAll(u), x);
      assert OwnedOk(s, log, v, x, now);
    }
  }

  lemma UnlistKeeps(s: Store, log: seq<Event>, u: User, t: Token, now: int)
    requires StoreOk(s, log, now) && History(log, t).Used?
    ensures StoreOk(Unlist(s, u, t, now), log, now)
  {
    hide History;
    var s' := Unlist(s, u, t, now);
    assert TokenOk(s, log, t, now);
    forall x
      ensures TokenOk(s', log, x, now) && ListedOk(s', x, now)
    {
      assert TokenOk(s, log, x, now) && ListedOk(s, x, now);
    }
    forall v, x
      ensures OwnedOk(s', log, v, x, now)
    {
      assert OwnedOk(s, log, v, x, now);
    }
  }

  /** A spent token stays spent as long as it is not issued again. */
  lemma UsedStays(sessions: map<nat, Session>, log: seq<Event>, e: Event)
    requires SessionsOk(sessions, log) && (e.Issued? ==> NewToken(log, e.token))
    ensures SessionsOk(sessions, log + [e])
  {
    hide History;
    forall c | c in sessions && sessions[c].Consumed?
      ensures History(log + [e], sessions[c].token).Used?
    {
      HistoryAppend(log, e, sessions[c].token);
    }
  }

  lemma BeginKeeps(y: System, c: nat, t: Token, answered: bool)
    requires Inv(y)
    ensures Inv(Next(y, Begin(c, t, answered)))
  {
    hide History, StoreOk, Consume;
    if c !in y.sessions {
      var o := Consume(y.store, t, y.now).1;
      TryKeeps(y.store, y.log, t, y.now);
      UsedStays(y.sessions, y.log, Tried(t, y.now, o));
      HistoryAppend(y.log, Tried(t, y.now, o), t);
      if o.Valid? {
        ValidIsActive(y, t);
      }
    }
  }

  lemma ValidIsActive(y: System, t: Token)
    requires Inv(y)
    ensures Consume(y.store, t, y.now).1 == Deserved(History(y.log, t), y.now)
  {
    hide History;
    assert TokenOk(y.store, y.log, t, y.now);
  }

  lemma StepKeeps(y: System, a: Action)
    requires Inv(y) && Sound(y, a)
    ensures Inv(Next(y, a))
  {
    hide History, StoreOk, Consume, Generate, RevokeAll, Unlist;
    match a {
      case Wait(ms) => WaitKeeps(y.store, y.log, y.now, y.now + ms);
      case Issue(u, t) =>
        IssueKeeps(y.store, y.log, u, t, y.now);
        UsedStays(y.sessions, y.log, Issued(t, u, y.now));
      case Try(t) =>
        TryKeeps(y.store, y.log, t, y.now);
        UsedStays(y.sessions, y.log, Tried(t, y.now, Consume(y.store, t, y.now).1));
      case Withdraw(t) =>
        RevokeKeeps(y.store, y.log, t, y.now);
        UsedStays(y.sessions, y.log, Revoked(t));
      case WithdrawAll(u) =>
        RevokeAllKeeps(y.store, y.log, u, y.now);
        UsedStays(y.sessions, y.log, RevokedAll(u));
      case Begin(c, t, answered) => BeginKeeps(y, c, t, answered);
      case Clear(c, applied) =>
        if c in y.sessions && y.sessions[c].Consumed? {
          UnlistKeeps(y.store, y.log, y.sessions[c].user, y.sessions[c].token, y.now);
        }
      case Renew(c, t) =>
        if c in y.sessions && y.sessions[c].Cleared? {
          IssueKeeps(y.store, y.log, y.sessions[c].user, t, y.now);
          UsedStays(y.sessions, y.log, Issued(t, y.sessions[c].user, y.now));
        }
      case Punish(c) =>
        if c in y.sessions && y.sessions[c].Compromised? {
          RevokeAllKeeps(y.store, y.log, y.sessions[c].user, y.now);
          UsedStays(y.sessions, y.log, RevokedAll(y.sessions[c].user));
        }
      case Abort(c) =>
    }
  }

  lemma {:induction false} RunKeeps(y: System, actions: seq<Action>)
    requires Inv(y) && SoundRun(y, actions)
    ensures Inv(Run(y, actions))
    decreases |actions|
  {
    hide Inv, Next, Sound;
    if actions != [] {
      StepKeeps(y, actions[0]);
      RunKeeps(Next(y, actions[0]), actions[1..]);
    }
  }

  lemma NewSystemOk(now: int)
    ensures Inv(NewSystem(now))
  {
  }

  // ---------------------------------------------------------------- main results

  /**
   Refinement: whatever was issued, spent, revoked and cleared before, by however many
   interleaved sessions, a token gets exactly the answer its history deserves.
   */
  lemma AnswersMatchHistory(now: int, actions: seq<Action>, t: Token)
    requires SoundRun(NewSystem(now), actions)
    ensures var y := Run(NewSystem(now), actions);
            Consume(y.store, t, y.now).1 == Deserved(History(y.log, t), y.now)
  {
    hide *;
    NewSystemOk(now);
    RunKeeps(NewSystem(now), actions);
    ValidIsActive(Run(NewSystem(now), actions), t);
  }

  lemma ListedHere(y: System, t: Token)
    requires Inv(y)
    ensures ListedOk(y.store, t, y.now)
  {
  }

  /** In every run each live token is in its owner's set, which expires no earlier. */
  lemma LiveTokensAreListed(now: int, actions: seq<Action>, t: Token)
    requires SoundRun(NewSystem(now), actions)
    ensures var y := Run(NewSystem(now), actions); ListedOk(y.store, t, y.now)
  {
    hide *;
    NewSystemOk(now);
    RunKeeps(NewSystem(now), actions);
    ListedHere(Run(NewSystem(now), actions), t);
  }

  lemma RevokedHere(y: System, u: User, t: Token)
    requires Inv(y)
    ensures Look(RevokeAll(y.store, u, y.now).tokens, t, y.now) ==
            match Look(y.store.tokens, t, y.now)
            case None => None
            case Some(e) => if e.user == u then None else Some(e)
  {
    hide StoreOk, RevokeAll, Look;
    RevokeAllLooks(y.store, y.log, u, t, y.now);
  }

  lemma SetIsGone(s: Store, u: User, now: int)
    ensures Members(RevokeAll(s, u, now).index, u, now) == {}
    ensures forall v :: v != u ==> Members(RevokeAll(s, u, now).index, v, now) == Members(s.index, v, now)
  {
  }

  /** Right after RevokeAllForUser the user has no live token and an empty set, and nobody else lost one. */
  lemma RevokeAllIsExact(now: int, actions: seq<Action>, u: User, t: Token)
    requires SoundRun(NewSystem(now), actions)
    ensures var y := Run(NewSystem(now), actions);
            Look(RevokeAll(y.store, u, y.now).tokens, t, y.now) ==
            match Look(y.store.tokens, t, y.now)
            case None => None
            case Some(e) => if e.user == u then None else Some(e)
    ensures var y := Run(NewSystem(now), actions);
            && Members(RevokeAll(y.store, u, y.now).index, u, y.now) == {}
            && forall v :: v != u ==>
                 Members(RevokeAll(y.store, u, y.now).index, v, y.now) == Members(y.store.index, v, y.now)
  {
    hide *;
    NewSystemOk(now);
    RunKeeps(NewSystem(now), actions);
    SetIsGone(Run(NewSystem(now), actions).store, u, Run(NewSystem(now), actions).now);
    RevokedHere(Run(NewSystem(now), actions), u, t);
  }

  /** How often a token was reported valid. */
  function ValidCount(log: seq<Event>, t: Token): (n: nat) {
    if log == [] then 0 else
    var e := log[|log| - 1];
    ValidCount(log[..|log| - 1], t) + if e.Tried? && e.token == t && e.outcome.Valid? then 1 else 0
  }

  lemma CountAppend(log: seq<Event>, e: Event, t: Token)
    ensures ValidCount(log + [e], t) ==
            ValidCount(log, t) + if e.Tried? && e.token == t && e.outcome.Valid? then 1 else 0
  {
    assert (log + [e])[..|log|] == log;
  }

  /** Reported valid once exactly when spent, never more, with the marker the report left behind. */
  ghost predicate SpentOk(log: seq<Event>, t: Token) {
    && ValidCount(log, t) == (if History(log, t).Used? then 1 else 0)
    && (forall i :: 0 <= i < |log| && log[i].Tried? && log[i].token == t && log[i].outcome.Valid? ==>
          History(log, t) == Used(log[i].outcome.user, log[i].at + TTL))
  }

  /** An event that a sound step of a consistent system can add. */
  ghost predicate Truthful(log: seq<Event>, e: Event) {
    && (e.Issued? ==> NewToken(log, e.token))
    && (e.Tried? ==> e.outcome == Deserved(History(log, e.token), e.at))
  }

  lemma SpentStep(log: seq<Event>, e: Event, t: Token)
    requires SpentOk(log, t) && Truthful(log, e)
    ensures SpentOk(log + [e], t)
  {
    hide History, ValidCount;
    HistoryAppend(log, e, t);
    CountAppend(log, e, t);
  }

  lemma StepLog(y: System, a: Action)
    requires Inv(y) && Sound(y, a)
    ensures var log := Next(y, a).log;
            log == y.log || (|log| == |y.log| + 1 && log == y.log + [log[|y.log|]] && Truthful(y.log, log[|y.log|]))
  {
    hide History, StoreOk, Inv, Generate, Consume, RevokeAll, Unlist;
    match a {
      case Try(t) => ValidIsActive(y, t);
      case Begin(c, t, answered) => ValidIsActive(y, t);
      case _ =>
    }
  }

  lemma {:induction false} RunSpent(y: System, actions: seq<Action>, t: Token)
    requires Inv(y) && SoundRun(y, actions) && SpentOk(y.log, t)
    ensures SpentOk(Run(y, actions).log, t)
    decreases |actions|
  {
    hide Inv, Next, Sound, SpentOk, Truthful;
    if actions != [] {
      var y' := Next(y, actions[0]);
      StepKeeps(y, actions[0]);
      StepLog(y, actions[0]);
      if y'.log != y.log {
        SpentStep(y.log, y'.log[|y.log|], t);
      }
      RunSpent(y', actions[1..], t);
    }
  }

  lemma NothingSpent(now: int, t: Token)
    ensures SpentOk(NewSystem(now).log, t)
  {
  }

  /** Single use: in every run every token is reported valid at most once. */
  lemma SingleUse(now: int, actions: seq<Action>, t: Token)
    requires SoundRun(NewSystem(now), actions)
    ensures ValidCount(Run(NewSystem(now), actions).log, t) <= 1
  {
    NewSystemOk(now);
    NothingSpent(now, t);
    hide Inv, Run, SoundRun;
    RunSpent(NewSystem(now), actions, t);
  }

  lemma AfterReport(y: System, i: nat)
    requires Inv(y) && i < |y.log| && y.log[i].Tried? && y.log[i].outcome.Valid?
    requires SpentOk(y.log, y.log[i].token)
    ensures Consume(y.store, y.log[i].token, y.now).1 ==
            if y.now < y.log[i].at + TTL then Reused(y.log[i].outcome.user) else Missing
  {
    hide StoreOk, History, Consume;
    ValidIsActive(y, y.log[i].token);
  }

  /**
   Reuse detection: once a token was reported valid for a user, every later attempt reports
   reuse by that user while the marker lives, and an unknown token afterwards.
   */
  lemma ReuseIsReported(now: int, actions: seq<Action>, i: nat)
    requires SoundRun(NewSystem(now), actions)
    requires var log := Run(NewSystem(now), actions).log;
             i < |log| && log[i].Tried? && log[i].outcome.Valid?
    ensures var y := Run(NewSystem(now), actions);
            Consume(y.store, y.log[i].token, y.now).1 ==
            if y.now < y.log[i].at + TTL then Reused(y.log[i].outcome.user) else Missing
  {
    hide *;
    var y := Run(NewSystem(now), actions);
    NewSystemOk(now);
    NothingSpent(now, y.log[i].token);
    RunKeeps(NewSystem(now), actions);
    RunSpent(NewSystem(now), actions, y.log[i].token);
    AfterReport(y, i);
  }

  // ---------------------------------------------------------------- the manager

  /** What ConsumeRefreshToken returns; Failed is an error. */
  datatype ConsumeResult = Accepted(user: User) | ReuseDetected(user: User) | Failed

  class RefreshTokenManager {
    var tokens: map<Token, Entry>
    var reuse: map<Token, Entry>
    var index: map<User, Index>

    ghost function View(): (s: Store)
      reads this
    {
      Store(tokens, reuse, index)
    }

    constructor ()
      ensures View() == Store(map[], map[], map[])
    {
      tokens, reuse, index := map[], map[], map[];
    }

    method GenerateToken(u: User, t: Token, now: int)
      modifies this`tokens, this`index
      ensures View() == Generate(old(View()), u, t, now)
    {
      tokens := tokens[t := Entry(u, now + TTL)];
      var set' := if u in index && now < index[u].expiry then index[u] else Index({}, now);
      set' := set'.(members := set'.members + {t});
      set' := set'.(expiry := now + TTL);
      index := index[u := set'];
    }

    method ConsumeRefreshToken(t: Token, now: int) returns (r: ConsumeResult)
      modifies this`tokens, this`reuse
      ensures View() == Consume(old(View()), t, now).0
      ensures r == match Consume(old(View()), t, now).1
                   case Valid(u) => if u.id == "" then Failed else Accepted(u)
                   case Reused(u) => if u.id == "" then Failed else ReuseDetected(u)
                   case Missing => Failed
    {
      var found := Look(tokens, t, now);
      if found.Some? {
        var user := found.value.user;
        tokens := tokens - {t};
        reuse := reuse[t := Entry(user, now + TTL)];
        return if user.id == "" then Failed else Accepted(user);
      }
      var marker := Look(reuse, t, now);
      if marker.Some? {
        return if marker.value.user.id == "" then Failed else ReuseDetected(marker.value.user);
      }
      return Failed;
    }

    method RemoveFromUserSet(u: User, t: Token, now: int)
      modifies this`index
      ensures View() == Unlist(old(View()), u, t, now)
    {
      if u in index && now < index[u].expiry {
        index := index[u := index[u].(members := index[u].members - {t})];
      }
    }

    method RevokeToken(t: Token)
      modifies this`tokens
      ensures View() == Revoke(old(View()), t)
    {
      tokens := tokens - {t};
    }

    /** The script's loop over the members of the set. */
    method RevokeAllForUser(u: User, now: int) returns (count: nat)
      modifies this`tokens, this`index
      ensures View() == RevokeAll(old(View()), u, now)
      ensures count == |Members(old(index), u, now)|
    {
      var members := Members(index, u, now);
      var todo := members;
      count := 0;
      while todo != {}
        invariant todo <= members && count == |members - todo|
        invariant tokens == old(tokens) - (members - todo)
        invariant reuse == old(reuse) && index == old(index)
        decreases |todo|
      {
        var t :| t in todo;
        assert members - (todo - {t}) == members - todo + {t};
        tokens := tokens - {t};
        todo := todo - {t};
        count := count + 1;
      }
      assert members - todo == members;
      index := index - {u};
    }

    /**
     RefreshSession when nothing else runs between its commands: a live token buys a new one
     for the same user, a spent one costs the user all tokens. `userFound` and `signed` are the
     answers of the user lookup and of the JWT signer.
     */
    method RefreshSession(presented: Token, next: Token, userFound: bool, signed: bool, now: int) returns (ok: bool)
      modifies this
      ensures View() == Refreshed(old(View()), presented, next, userFound, signed, now).0
      ensures ok == Refreshed(old(View()), presented, next, userFound, signed, now).1
      ensures ok <==> var found := Look(old(tokens), presented, now);
                      found.Some? && found.value.user.id != "" && userFound && signed
      ensures Minted(old(View()), View(), ok, next, now)
      ensures presented != next ==> Look(tokens, presented, now).None?
    {
      SessionMints(View(), presented, next, userFound, signed, now);
      hide Consume, Generate, RevokeAll, Unlist;
      var r := ConsumeRefreshToken(presented, now);
      match r {
        case Failed => return false;
        case ReuseDetected(u) =>
          var _ := RevokeAllForUser(u, now);
          return false;
        case Accepted(u) =>
          if !userFound {
            return false;
          }
          RemoveFromUserSet(u, presented, now);
          if !signed {
            return false;
          }
          GenerateToken(u, next, now);
          return true;
      }
    }
  }

  lemma SessionMints(s: Store, presented: Token, next: Token, userFound: bool, signed: bool, now: int)
    ensures var r := Refreshed(s, presented, next, userFound, signed, now);
            && (r.1 <==> var found := Look(s.tokens, presented, now);
                         found.Some? && found.value.user.id != "" && userFound && signed)
            && Minted(s, r.0, r.1, next, now)
            && (presented != next ==> Look(r.0.tokens, presented, now).None?)
  {
  }

  /** The store after an undisturbed RefreshSession, and whether it succeeded. */
  function Refreshed(s: Store, presented: Token, next: Token, userFound: bool, signed: bool, now: int): (r: (Store,
                     bool)) {
    var c := Consume(s, presented, now);
    match c.1
    case Missing => (c.0, false)
    case Reused(u) => (if u.id == "" then c.0 else RevokeAll(c.0, u, now), false)
    case Valid(u) =>
      if u.id == "" || !userFound then (c.0, false) else
      var cleared := Unlist(c.0, u, presented, now);
      if signed then (Generate(cleared, u, next, now), true) else (cleared, false)
  }

  /**
   What an undisturbed RefreshSession must do, in terms of live keys only; `o` is the answer the
   presented token deserves.
   */
  ghost predicate RefreshLaw(before: Store, after: Store, ok: bool, o: Outcome, presented: Token, next: Token,
                             userFound: bool, signed: bool, now: int) {
    && (ok <==> o.Valid? && o.user.id != "" && userFound && signed)
    && Minted(before, after, ok, next, now)
    && (ok ==> Look(after.tokens, next, now) == Some(Entry(o.user, now + TTL)))
    && (o.Valid? ==> Look(after.tokens, presented, now).None?)
    && (o.Valid? ==> Look(after.reuse, presented, now) == Some(Entry(o.user, now + TTL)))
    && (o.Missing? ==> after == before)
    && (forall t, e :: Look(before.tokens, t, now) == Some(e) && t != presented && !Punished(o, e.user) ==>
          Look(after.tokens, t, now) == Some(e))
    && (forall t, e :: Look(after.tokens, t, now) == Some(e) ==> !Punished(o, e.user))
  }

  /** Only a successful call brings a token to life, and only the new one. */
  ghost predicate Minted(before: Store, after: Store, ok: bool, next: Token, now: int) {
    forall t, e :: Look(after.tokens, t, now) == Some(e) ==>
      Look(before.tokens, t, now) == Some(e) || (ok && t == next)
  }

  /** Reuse was reported for this user, so all the user's tokens go. */
  predicate Punished(o: Outcome, u: User) {
    o.Reused? && o.user.id != "" && u == o.user
  }

  /**
   Rotation, for every token, user id, lookup and signer: an undisturbed refresh succeeds exactly for
   a token whose history makes it valid, with a user that exists and a signer that answers. The old
   token is spent in every case, and a spent one presented again costs its user all live tokens.
   */
  lemma RefreshRotates(y: System, presented: Token, next: Token, userFound: bool, signed: bool)
    requires Inv(y) && NewToken(y.log, next) && presented != next
    ensures var r := Refreshed(y.store, presented, next, userFound, signed, y.now);
            var o := Deserved(History(y.log, presented), y.now);
            RefreshLaw(y.store, r.0, r.1, o, presented, next, userFound, signed, y.now)
  {
    hide History, StoreOk;
    ValidIsActive(y, presented);
    NewIsNotLive(y, next);
    var o := Consume(y.store, presented, y.now).1;
    if o.Reused? {
      hide Consume, Look;
      SpentChangesNothing(y.store, presented, y.now);
      forall t
        ensures Look(RevokeAll(y.store, o.user, y.now).tokens, t, y.now) ==
                match Look(y.store.tokens, t, y.now)
                case None => None
                case Some(e) => if e.user == o.user then None else Some(e)
      {
        RevokedHere(y, o.user, t);
      }
    }
  }

  lemma NewIsNotLive(y: System, t: Token)
    requires Inv(y) && NewToken(y.log, t)
    ensures Look(y.store.tokens, t, y.now).None?
  {
    hide History;
    assert TokenOk(y.store, y.log, t, y.now);
  }

  lemma SpentChangesNothing(s: Store, t: Token, now: int)
    ensures !Consume(s, t, now).1.Valid? ==> Consume(s, t, now).0 == s
  {
  }
}
