/** Single-flight quota collection (src/inference_grid/collector.py): one transaction takes the
    account's claim, the provider is called outside any transaction, a 429's cooldown is stored
    in a transaction of its own, and a last transaction clears the claim. Any process may crash
    between two of these. */
module Collector {
  import opened Wrappers
  import opened LedgerSpec
  import opened Transitions
  import RetryAfter

  datatype Status =
    | Collecting | CooldownStored | InvalidResponse | InvalidResponseTime | DeadlineExceeded
    | Unvalidated | UnknownReported | ProviderError | ObservationTaken | InvalidObservation
    | AuthRequired | TransientError | HttpError | CollectorError

  datatype Action = Validate | CoolDown | Other(status: Status)

  /** `classify_quota_status`; None is its ValueError. */
  function Classify(status: Option<int>): Option<Action> {
    match status
    case None => None
    case Some(n) =>
      if !(100 <= n <= 599) then None
      else if n == 200 then Some(Validate)
      else if n == 429 then Some(CoolDown)
      else if n == 401 || n == 403 then Some(Other(AuthRequired))
      else if n >= 500 then Some(Other(TransientError))
      else Some(Other(HttpError))
  }

  datatype Reading = Absent | SaysUnknown | SaysError | Normalized | Malformed

  /** What the collector's call comes back with; a status that is not an integer is None. */
  datatype Response =
    | Raises
    | NotAResponse
    | Reply(status: Option<int>, retry: RetryAfter.Header, receivedAt: Option<real>, reading: Reading)

  datatype Claim = Claim(token: Option<nat>, deadline: real, lastStatus: Status)

  datatype Phase = InFlight | Storing(until: real) | Ending(status: Status)

  /** A collection under way; `asked` is the deadline a 429 of it asked for. */
  datatype Call = Call(account: string, started: real, deadline: real, fallback: real, phase: Phase, asked: Option<real>)

  /** The ledger, the claim rows and the processes. `begun` and `cleared` are the history of the
      tokens: which account each was drawn for, and which were cleared. No step reads them. */
  datatype World = World(ledger: State, claims: map<string, Claim>, calls: map<nat, Call>, issued: nat,
                         begun: map<nat, string>, cleared: set<nat>)

  const Start0 := World(Empty, map[], map[], 0, map[], {})

  // ----- The steps -----------------------------------------------------------------------

  datatype BeginReply =
    | BoundsRefused | Unknown | CoolingDown(until: real) | Busy | ReconciliationRequired
    | Begun(token: nat)

  function BeginReplyOf(w: World, alias: string, timeout: real, fallback: real, now: real): BeginReply {
    if !(0.0 < timeout <= 120.0) || !(0.0 < fallback <= 86400.0) then BoundsRefused
    else if alias !in w.ledger.aliases || w.ledger.aliases[alias] !in w.ledger.accounts then Unknown
    else
      var account := w.ledger.aliases[alias];
      if (account, Usage) in w.ledger.cooldowns && w.ledger.cooldowns[(account, Usage)] > now
      then CoolingDown(w.ledger.cooldowns[(account, Usage)])
      else if account in w.claims && w.claims[account].token.Some?
      then if w.claims[account].deadline > now then Busy else BeginReply.ReconciliationRequired
      else Begun(w.issued)
  }

  function Begin(w: World, alias: string, timeout: real, fallback: real, now: real): World {
    if !BeginReplyOf(w, alias, timeout, fallback, now).Begun? then w
    else
      var account := w.ledger.aliases[alias];
      w.(claims := w.claims[account := Claim(Some(w.issued), now + timeout, Collecting)],
         calls := w.calls[w.issued := Call(account, now, now + timeout, fallback, InFlight, None)],
         issued := w.issued + 1,
         begun := w.begun[w.issued := account])
  }

  datatype Next = GiveUp | StoreUntil(until: real) | EndWith(status: Status)

  function ReadingStatus(reading: Reading): Status {
    match reading
    case Absent => Unvalidated
    case SaysUnknown => UnknownReported
    case SaysError => ProviderError
    case Normalized => ObservationTaken
    case Malformed => InvalidObservation
  }

  /** What the process does with a response received by `finished`. */
  function Judge(g: RetryAfter.Grid, call: Call, response: Response, finished: real): Next {
    match response
    case Raises => EndWith(CollectorError)
    case NotAResponse => EndWith(InvalidResponse)
    case Reply(status, retry, receivedAt, reading) =>
      match Classify(status)
      case None => EndWith(CollectorError)
      case Some(action) =>
        var received := if receivedAt.None? then finished else receivedAt.value;
        if !(call.started <= received <= finished) then
          if action.CoolDown? then GiveUp else EndWith(InvalidResponseTime)
        else if action.CoolDown? then
          match RetryAfter.Deadline(g, retry, received, call.fallback)
          case None => GiveUp
          case Some(i) => StoreUntil(g.points[i])
        else if finished > call.deadline then EndWith(DeadlineExceeded)
        else if action.Validate? then EndWith(ReadingStatus(reading))
        else EndWith(action.status)
  }

  /** The process is gone; the claim row stays as it is. */
  function Gone(w: World, token: nat): World {
    w.(calls := w.calls - {token})
  }

  function Respond(w: World, g: RetryAfter.Grid, token: nat, response: Response, finished: real): World {
    if token !in w.calls || !w.calls[token].phase.InFlight? then w
    else
      match Judge(g, w.calls[token], response, finished)
      case GiveUp => Gone(w, token)
      case StoreUntil(u) => w.(calls := w.calls[token := w.calls[token].(phase := Storing(u), asked := Some(u))])
      case EndWith(status) => w.(calls := w.calls[token := w.calls[token].(phase := Ending(status))])
  }

  /** `ledger.defer(account, "usage", until)`, by the account's own name. */
  function Store(w: World, token: nat, now: real): World {
    if token !in w.calls || !w.calls[token].phase.Storing? then w
    else
      var call := w.calls[token];
      if DeferRefusal(w.ledger, call.account, call.phase.until).Some? then Gone(w, token)
      else w.(ledger := Defer(w.ledger, call.account, Usage, call.phase.until, now),
              calls := w.calls[token := call.(phase := Ending(CooldownStored))])
  }

  function End(w: World, token: nat): World {
    if token !in w.calls || !w.calls[token].phase.Ending? then w
    else
      var account := w.calls[token].account;
      if account in w.claims && w.claims[account].token == Some(token)
      then Gone(w, token).(claims := w.claims[account := w.claims[account].(token := None, lastStatus := w.calls[token].phase.status)],
                           cleared := w.cleared + {token})
      else Gone(w, token)
  }

  datatype Turn =
    | DoLedger(step: Step)                                          // any other actor
    | DoBegin(alias: string, timeout: real, fallback: real, now: real)
    | DoRespond(token: nat, response: Response, finished: real)
    | DoStore(token: nat, now: real)
    | DoEnd(token: nat)
    | DoCrash(token: nat)

  function Take(w: World, g: RetryAfter.Grid, turn: Turn): World {
    match turn
    case DoLedger(step) => w.(ledger := Apply(w.ledger, step))
    case DoBegin(alias, timeout, fallback, now) => Begin(w, alias, timeout, fallback, now)
    case DoRespond(token, response, finished) => Respond(w, g, token, response, finished)
    case DoStore(token, now) => Store(w, token, now)
    case DoEnd(token) => End(w, token)
    case DoCrash(token) => Gone(w, token)
  }

  function Play(w: World, g: RetryAfter.Grid, turns: seq<Turn>): World {
    if turns == [] then w else Take(Play(w, g, turns[..|turns| - 1]), g, turns[|turns| - 1])
  }

  // ----- The invariant -------------------------------------------------------------------

  function StoredCooldown(s: State, account: string): real {
    if (account, Usage) in s.cooldowns then s.cooldowns[(account, Usage)] else 0.0
  }

  /** A token that was drawn for the account and never cleared. */
  predicate Outstanding(w: World, token: nat, account: string) {
    token in w.begun && w.begun[token] == account && token !in w.cleared
  }

  ghost predicate HoldsClaim(w: World, token: nat, account: string) {
    account in w.claims && w.claims[account].token == Some(token)
  }

  ghost predicate CallSound(w: World, token: nat)
    requires token in w.calls
  {
    var call := w.calls[token];
    && HoldsClaim(w, token, call.account)
    && call.account in w.ledger.accounts
    && (call.phase.InFlight? ==> call.asked.None?)
    && (call.phase.Storing? ==> call.asked == Some(call.phase.until))
    && (call.phase.Ending? && call.asked.Some? ==> StoredCooldown(w.ledger, call.account) >= call.asked.value)
  }

  ghost predicate Sound(w: World) {
    && Linked(w.ledger)
    && (forall t :: t in w.begun || t in w.cleared ==> t < w.issued)
    && (forall t :: t in w.calls ==> CallSound(w, t))
    && (forall t, a :: Outstanding(w, t, a) <==> HoldsClaim(w, t, a))
  }

  /** Accounts stay and cooldowns never shrink. */
  ghost predicate LedgerGrows(s: State, s': State) {
    && (forall a :: a in s.accounts ==> a in s'.accounts)
    && (forall a :: StoredCooldown(s, a) <= StoredCooldown(s', a))
    && (forall a :: (a, Usage) in s.cooldowns ==> (a, Usage) in s'.cooldowns)
  }

  lemma DeferGrows(s: State, alias: string, endpoint: Endpoint, until: real, now: real)
    ensures LedgerGrows(s, Defer(s, alias, endpoint, until, now))
  {
  }

  lemma StepGrows(s: State, step: Step)
    requires Linked(s)
    ensures LedgerGrows(s, Apply(s, step)) && Linked(Apply(s, step))
  {
    var shape := StepShape(s, step);
    ShapeKeepsLinked(s, Apply(s, step), shape);
    if step.DoDefer? {
      DeferGrows(s, step.alias, step.endpoint, step.until, step.now);
    } else {
      KeepsCooldowns(s, step);
    }
  }

  predicate KeepsWaits(s: State, s': State) {
    s'.cooldowns == s.cooldowns && s.accounts.Keys <= s'.accounts.Keys
  }

  lemma MovedKeepsWaits(s: State, s': State, i: nat)
    requires MovesOrStays(s, s', i)
    ensures KeepsWaits(s, s')
  {
  }

  lemma RestingKeepsWaits(s: State, step: Step)
    requires !Moves(step) && !step.DoDefer?
    ensures KeepsWaits(s, Apply(s, step))
  {
  }

  lemma KeepsCooldowns(s: State, step: Step)
    requires !step.DoDefer?
    ensures Apply(s, step).cooldowns == s.cooldowns
    ensures forall a :: a in s.accounts ==> a in Apply(s, step).accounts
  {
    if Moves(step) {
      MovingStep(s, step);
      MovedKeepsWaits(s, Apply(s, step), Target(step));
    } else {
      RestingKeepsWaits(s, step);
    }
  }

  lemma LedgerTurn(w: World, w': World)
    requires Sound(w) && w' == w.(ledger := w'.ledger) && LedgerGrows(w.ledger, w'.ledger) && Linked(w'.ledger)
    ensures Sound(w')
  {
    forall t | t in w'.calls ensures CallSound(w', t) {
      assert CallSound(w, t);
    }
    forall t, a ensures Outstanding(w', t, a) <==> HoldsClaim(w', t, a) {
      assert Outstanding(w, t, a) <==> HoldsClaim(w, t, a);
    }
  }

  lemma BeginTurn(w: World, alias: string, timeout: real, fallback: real, now: real)
    requires Sound(w)
    ensures Sound(Begin(w, alias, timeout, fallback, now))
  {
    var w' := Begin(w, alias, timeout, fallback, now);
    if w' != w {
      var account := w.ledger.aliases[alias];
      forall t | t in w'.calls ensures CallSound(w', t) {
        assert t != w.issued ==> CallSound(w, t);
      }
      forall t, a ensures Outstanding(w', t, a) <==> HoldsClaim(w', t, a) {
        assert Outstanding(w, t, a) <==> HoldsClaim(w, t, a);
      }
    }
  }

  lemma GoneTurn(w: World, token: nat)
    requires Sound(w)
    ensures Sound(Gone(w, token))
  {
    var w' := Gone(w, token);
    forall t | t in w'.calls ensures CallSound(w', t) {
      assert CallSound(w, t);
    }
    forall t, a ensures Outstanding(w', t, a) <==> HoldsClaim(w', t, a) {
      assert Outstanding(w, t, a) <==> HoldsClaim(w, t, a);
    }
  }

  lemma CallTurn(w: World, token: nat, call: Call)
    requires Sound(w) && token in w.calls && call.account == w.calls[token].account
    requires CallSound(w.(calls := w.calls[token := call]), token)
    ensures Sound(w.(calls := w.calls[token := call]))
  {
    var w' := w.(calls := w.calls[token := call]);
    forall t | t in w'.calls ensures CallSound(w', t) {
      assert t != token ==> CallSound(w, t);
    }
    forall t, a ensures Outstanding(w', t, a) <==> HoldsClaim(w', t, a) {
      assert Outstanding(w, t, a) <==> HoldsClaim(w, t, a);
    }
  }

  lemma RespondTurn(w: World, g: RetryAfter.Grid, token: nat, response: Response, finished: real)
    requires Sound(w)
    ensures Sound(Respond(w, g, token, response, finished))
  {
    if token in w.calls && w.calls[token].phase.InFlight? {
      assert CallSound(w, token);
      match Judge(g, w.calls[token], response, finished)
      case GiveUp => GoneTurn(w, token);
      case StoreUntil(u) => CallTurn(w, token, w.calls[token].(phase := Storing(u), asked := Some(u)));
      case EndWith(status) => CallTurn(w, token, w.calls[token].(phase := Ending(status)));
    }
  }

  /** The account's own name is one of its aliases, so the cooldown is stored on it. */
  lemma StoreTurn(w: World, token: nat, now: real)
    requires Sound(w)
    ensures Sound(Store(w, token, now))
  {
    if token in w.calls && w.calls[token].phase.Storing? {
      var call := w.calls[token];
      assert CallSound(w, token);
      if DeferRefusal(w.ledger, call.account, call.phase.until).Some? {
        GoneTurn(w, token);
      } else {
        var s' := Defer(w.ledger, call.account, Usage, call.phase.until, now);
        DeferGrows(w.ledger, call.account, Usage, call.phase.until, now);
        assert w.ledger.aliases[call.account] == call.account;
        assert Linked(s');
        var w1 := w.(ledger := s');
        LedgerTurn(w, w1);
        assert StoredCooldown(s', call.account) >= call.phase.until;
        CallTurn(w1, token, call.(phase := Ending(CooldownStored)));
      }
    }
  }

  lemma EndTurn(w: World, token: nat)
    requires Sound(w)
    ensures Sound(End(w, token))
  {
    if token in w.calls && w.calls[token].phase.Ending? {
      assert CallSound(w, token);
      var w' := End(w, token);
      var account := w.calls[token].account;
      assert Outstanding(w, token, account);
      forall t | t in w'.calls ensures CallSound(w', t) {
        assert CallSound(w, t);
        assert w.calls[t].account == account ==> t == token;
      }
      forall t, a ensures Outstanding(w', t, a) <==> HoldsClaim(w', t, a) {
        assert Outstanding(w, t, a) <==> HoldsClaim(w, t, a);
      }
    }
  }

  lemma TurnKeepsSound(w: World, g: RetryAfter.Grid, turn: Turn)
    requires Sound(w)
    ensures Sound(Take(w, g, turn))
  {
    match turn
    case DoLedger(step) =>
      StepGrows(w.ledger, step);
      LedgerTurn(w, w.(ledger := Apply(w.ledger, step)));
    case DoBegin(alias, timeout, fallback, now) => BeginTurn(w, alias, timeout, fallback, now);
    case DoRespond(token, response, finished) => RespondTurn(w, g, token, response, finished);
    case DoStore(token, now) => StoreTurn(w, token, now);
    case DoEnd(token) => EndTurn(w, token);
    case DoCrash(token) => GoneTurn(w, token);
  }

  lemma {:induction false} PlayKeepsSound(g: RetryAfter.Grid, turns: seq<Turn>)
    ensures Sound(Play(Start0, g, turns))
  {
    if turns != [] {
      PlayKeepsSound(g, turns[..|turns| - 1]);
      TurnKeepsSound(Play(Start0, g, turns[..|turns| - 1]), g, turns[|turns| - 1]);
    }
  }

  // ----- What the protocol guarantees ----------------------------------------------------

  /** Under any interleaving with crashes anywhere, an account has at most one collection in
      flight or not reconciled, and every collection in flight is that one. */
  lemma SingleFlight(g: RetryAfter.Grid, turns: seq<Turn>, t: nat, u: nat, account: string)
    ensures var w := Play(Start0, g, turns);
            && (Outstanding(w, t, account) && Outstanding(w, u, account) ==> t == u)
            && (t in w.calls ==> Outstanding(w, t, w.calls[t].account))
  {
    PlayKeepsSound(g, turns);
    var w := Play(Start0, g, turns);
    if t in w.calls {
      assert CallSound(w, t);
    }
    assert Outstanding(w, t, account) <==> HoldsClaim(w, t, account);
    assert Outstanding(w, u, account) <==> HoldsClaim(w, u, account);
  }

  /** A claim, once taken, is given up only by the last transaction of the process that took it. */
  lemma OnlyTheOwnerClears(g: RetryAfter.Grid, turns: seq<Turn>, turn: Turn, account: string, token: nat)
    requires HoldsClaim(Play(Start0, g, turns), token, account)
    ensures var w := Play(Start0, g, turns);
            HoldsClaim(Take(w, g, turn), token, account) <==>
            !(turn == DoEnd(token) && token in w.calls && w.calls[token].phase.Ending?)
  {
    PlayKeepsSound(g, turns);
    var w := Play(Start0, g, turns);
    assert token in w.calls ==> CallSound(w, token);
    assert Outstanding(w, token, account);
    if turn.DoEnd? && turn.token in w.calls {
      assert CallSound(w, turn.token);
    }
  }

  /** The claim is taken and its process is gone. */
  ghost predicate Lost(w: World, account: string, token: nat) {
    HoldsClaim(w, token, account) && token !in w.calls
  }

  lemma TurnKeepsLost(g: RetryAfter.Grid, w: World, turn: Turn, account: string, token: nat)
    requires Sound(w) && Lost(w, account, token)
    ensures Lost(Take(w, g, turn), account, token)
  {
    assert Outstanding(w, token, account);
    if turn.DoEnd? && turn.token in w.calls {
      assert CallSound(w, turn.token);
    }
  }

  /** A process that crashed or gave up leaves its claim taken for good: nothing the protocol does
      clears it, and no call of that account begins. */
  lemma {:induction false} LostClaimStaysTaken(g: RetryAfter.Grid, w: World, turns: seq<Turn>, account: string, token: nat)
    requires Sound(w) && Lost(w, account, token)
    ensures Sound(Play(w, g, turns)) && Lost(Play(w, g, turns), account, token)
    ensures forall t :: t in Play(w, g, turns).calls ==> Play(w, g, turns).calls[t].account != account
  {
    if turns != [] {
      var v := Play(w, g, turns[..|turns| - 1]);
      LostClaimStaysTaken(g, w, turns[..|turns| - 1], account, token);
      TurnKeepsSound(v, g, turns[|turns| - 1]);
      TurnKeepsLost(g, v, turns[|turns| - 1], account, token);
    }
    var end := Play(w, g, turns);
    forall t | t in end.calls ensures end.calls[t].account != account {
      assert CallSound(end, t);
    }
  }

  /** The account's usage cooldown, if any, as the run had it before turn `j`, has run out by `now`. */
  predicate CooledDown(g: RetryAfter.Grid, turns: seq<Turn>, j: nat, account: string, now: real)
    requires j <= |turns|
  {
    var s := Play(Start0, g, turns[..j]).ledger;
    (account, Usage) in s.cooldowns ==> s.cooldowns[(account, Usage)] <= now
  }

  /** Turn `i` draws the token for the account, when every cooldown stored for it before has run out. */
  ghost predicate BeganAt(g: RetryAfter.Grid, turns: seq<Turn>, i: nat, token: nat, account: string) {
    && i < |turns| && turns[i].DoBegin?
    && Play(Start0, g, turns[..i]).issued == token
    && turns[i].alias in Play(Start0, g, turns[..i]).ledger.aliases
    && Play(Start0, g, turns[..i]).ledger.aliases[turns[i].alias] == account
    && forall j :: 0 <= j <= i ==> CooledDown(g, turns, j, account, turns[i].now)
  }

  lemma TurnGrows(g: RetryAfter.Grid, w: World, turn: Turn)
    requires Sound(w)
    ensures LedgerGrows(w.ledger, Take(w, g, turn).ledger)
  {
    match turn
    case DoLedger(step) => StepGrows(w.ledger, step);
    case DoStore(token, now) =>
      if token in w.calls && w.calls[token].phase.Storing? {
        DeferGrows(w.ledger, w.calls[token].account, Usage, w.calls[token].phase.until, now);
      }
    case _ =>
  }

  lemma {:induction false} CooledDownBefore(g: RetryAfter.Grid, turns: seq<Turn>, j: nat, i: nat, account: string, now: real)
    requires j <= i <= |turns| && CooledDown(g, turns, i, account, now)
    ensures CooledDown(g, turns, j, account, now)
    decreases i - j
  {
    if j < i {
      var w := Play(Start0, g, turns[..i - 1]);
      assert turns[..i][..i - 1] == turns[..i - 1] && turns[..i][i - 1] == turns[i - 1];
      PlayKeepsSound(g, turns[..i - 1]);
      TurnGrows(g, w, turns[i - 1]);
      assert StoredCooldown(w.ledger, account) <= StoredCooldown(Take(w, g, turns[i - 1]).ledger, account);
      CooledDownBefore(g, turns, j, i - 1, account, now);
    }
  }

  lemma TokenDrawn(g: RetryAfter.Grid, w: World, turn: Turn, token: nat)
    requires Sound(w) && token in Take(w, g, turn).begun
    ensures token in w.begun ==> Take(w, g, turn).begun[token] == w.begun[token]
    ensures token !in w.begun ==>
              && turn.DoBegin? && token == w.issued && turn.alias in w.ledger.aliases
              && Take(w, g, turn).begun[token] == w.ledger.aliases[turn.alias]
              && ((w.ledger.aliases[turn.alias], Usage) in w.ledger.cooldowns ==>
                    w.ledger.cooldowns[(w.ledger.aliases[turn.alias], Usage)] <= turn.now)
  {
  }

  lemma BeganInPrefix(g: RetryAfter.Grid, turns: seq<Turn>, i: nat, token: nat, account: string)
    requires turns != [] && BeganAt(g, turns[..|turns| - 1], i, token, account)
    ensures BeganAt(g, turns, i, token, account)
  {
    var before := turns[..|turns| - 1];
    assert before[..i] == turns[..i];
    forall j | 0 <= j <= i ensures CooledDown(g, turns, j, account, turns[i].now) {
      assert before[..j] == turns[..j] && CooledDown(g, before, j, account, turns[i].now);
    }
  }

  /** In every run each call was begun by a turn at which every usage cooldown stored for its account
      up to then had run out. */
  lemma {:induction false} NoCallUnderCooldown(g: RetryAfter.Grid, turns: seq<Turn>, token: nat)
    requires token in Play(Start0, g, turns).begun
    ensures exists i: nat :: BeganAt(g, turns, i, token, Play(Start0, g, turns).begun[token])
    decreases |turns|
  {
    var n := |turns| - 1;
    var before, last := turns[..n], turns[n];
    var w, account := Play(Start0, g, before), Play(Start0, g, turns).begun[token];
    PlayKeepsSound(g, before);
    TokenDrawn(g, w, last, token);
    if token in w.begun {
      NoCallUnderCooldown(g, before, token);
      var i: nat :| BeganAt(g, before, i, token, account);
      BeganInPrefix(g, turns, i, token, account);
    } else {
      forall j | 0 <= j <= n ensures CooledDown(g, turns, j, account, last.now) {
        CooledDownBefore(g, turns, j, n, account, last.now);
      }
      assert BeganAt(g, turns, n, token, account);
    }
  }

  /** The process got a 429 for this call. */
  predicate RateLimited(response: Response) {
    response.Reply? && response.status == Some(429)
  }

  /** When the response came in. */
  function ReceivedAt(response: Response, finished: real): real
    requires response.Reply?
  {
    if response.receivedAt.None? then finished else response.receivedAt.value
  }

  /** The deadline does not shorten the wait the provider asked for, from the epoch on or in
      representable seconds; nor the fallback, where the provider asked for none. */
  ghost predicate WaitKept(g: RetryAfter.Grid, retry: RetryAfter.Header, received: real, fallback: real, until: real) {
    match retry
    case Seconds(n) => received >= 0.0 || RetryAfter.Representable(g, n as real) ==> until >= received + n as real
    case Other => RetryAfter.Representable(g, fallback) ==> until >= received + fallback
    case Date(at) => until >= received
  }

  lemma DeadlineKeepsWait(g: RetryAfter.Grid, retry: RetryAfter.Header, received: real, fallback: real)
    requires RetryAfter.Valid(g) && RetryAfter.Representable(g, received)
    requires RetryAfter.Deadline(g, retry, received, fallback).Some?
    ensures WaitKept(g, retry, received, fallback, g.points[RetryAfter.Deadline(g, retry, received, fallback).value])
  {
    RetryAfter.RepresentableRoundsToItself(g, received);
    RetryAfter.DeadlineIsNotPast(g, retry, received, fallback);
    if !retry.Date? {
      RetryAfter.DeadlineNeverShortens(g, retry, received, fallback);
    }
    if retry.Other? && RetryAfter.Representable(g, fallback) {
      RetryAfter.RepresentableRoundsToItself(g, fallback);
    }
  }

  /** What a rate limit is judged to. */
  lemma JudgedLimit(g: RetryAfter.Grid, call: Call, response: Response, finished: real)
    requires RateLimited(response)
    ensures var next := Judge(g, call, response, finished);
            var deadline := RetryAfter.Deadline(g, response.retry, ReceivedAt(response, finished), call.fallback);
            next.GiveUp? || (next.StoreUntil? && deadline.Some? && next.until == g.points[deadline.value])
  {
  }

  /** After a 429 the process either goes on to store a deadline that keeps the wait, or is gone with
      its claim still taken. */
  lemma RateLimitIsKept(g: RetryAfter.Grid, w: World, token: nat, response: Response, finished: real)
    requires Sound(w) && token in w.calls && w.calls[token].phase.InFlight? && RateLimited(response)
    ensures var w' := Respond(w, g, token, response, finished);
            && HoldsClaim(w', token, w.calls[token].account)
            && (token in w'.calls ==>
                  && w'.calls[token].phase.Storing? && w'.calls[token].asked == Some(w'.calls[token].phase.until)
                  && (RetryAfter.Valid(g) && RetryAfter.Representable(g, ReceivedAt(response, finished)) ==>
                        WaitKept(g, response.retry, ReceivedAt(response, finished), w.calls[token].fallback,
                                 w'.calls[token].phase.until)))
  {
    assert CallSound(w, token);
    var call, received := w.calls[token], ReceivedAt(response, finished);
    JudgedLimit(g, call, response, finished);
    if RetryAfter.Valid(g) && Judge(g, call, response, finished).StoreUntil? && RetryAfter.Representable(g, received) {
      DeadlineKeepsWait(g, response.retry, received, call.fallback);
    }
  }

  /** When the claim of a rate-limited call is cleared, a cooldown at least as late as the
      deadline it asked for is stored on the account. */
  lemma ClearedAfterCooldown(g: RetryAfter.Grid, turns: seq<Turn>, token: nat)
    requires var w := Play(Start0, g, turns);
             token in w.calls && w.calls[token].asked.Some? && token in End(w, token).cleared && token !in w.cleared
    ensures var w := Play(Start0, g, turns);
            StoredCooldown(End(w, token).ledger, w.calls[token].account) >= w.calls[token].asked.value
  {
    PlayKeepsSound(g, turns);
    assert CallSound(Play(Start0, g, turns), token);
  }
}
