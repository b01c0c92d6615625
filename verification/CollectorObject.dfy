/** `collect` as the program has it: claim rows updated in place, two transactions around the
    provider's call. Other processes may take any number of turns between ours. */
module CollectorObject {
  import opened Wrappers
  import opened LedgerSpec
  import opened LedgerObject
  import opened Transitions
  import opened Collector
  import RetryAfter

  /** What a call of `collect` returns. */
  datatype CollectReply = NotBegun(why: BeginReply) | Reconcile | Done(status: Status)

  class Collections {
    const ledger: Ledger
    var claims: map<string, Claim>
    var issued: nat
    var calls: map<nat, Call>            // the processes at work, each with what it knows
    ghost var begun: map<nat, string>
    ghost var cleared: set<nat>

    ghost function View(): World
      reads this, ledger
    {
      World(ledger.View(), claims, calls, issued, begun, cleared)
    }

    constructor (ledger: Ledger)
      ensures this.ledger == ledger
      ensures View() == Start0.(ledger := ledger.View())
    {
      this.ledger := ledger;
      claims, issued := map[], 0;
      calls, begun, cleared := map[], map[], {};
    }

    /** The first transaction: take the claim, or say why not. */
    method BeginCall(alias: string, timeout: real, fallback: real, now: real) returns (r: BeginReply)
      modifies this
      ensures r == BeginReplyOf(old(View()), alias, timeout, fallback, now)
      ensures View() == Begin(old(View()), alias, timeout, fallback, now)
    {
      if !(0.0 < timeout <= 120.0) || !(0.0 < fallback <= 86400.0) { return BoundsRefused; }
      if alias !in ledger.aliases || ledger.aliases[alias] !in ledger.accounts { return Unknown; }
      var account := ledger.aliases[alias];
      if (account, Usage) in ledger.cooldowns && ledger.cooldowns[(account, Usage)] > now {
        return CoolingDown(ledger.cooldowns[(account, Usage)]);
      }
      if account in claims && claims[account].token.Some? {
        return if claims[account].deadline > now then Busy else BeginReply.ReconciliationRequired;
      }
      var token := issued;
      claims := claims[account := Claim(Some(token), now + timeout, Collecting)];
      calls := calls[token := Call(account, now, now + timeout, fallback, InFlight, None)];
      begun := begun[token := account];
      issued := issued + 1;
      return Begun(token);
    }

    /** The last transaction: clear the claim if it is still ours. */
    method EndCall(account: string, token: nat, status: Status) returns (ended: bool)
      requires token in calls && calls[token].account == account && calls[token].phase == Ending(status)
      modifies this
      ensures ended <==> HoldsClaim(old(View()), token, account)
      ensures View() == End(old(View()), token)
    {
      calls := calls - {token};
      if account in claims && claims[account].token == Some(token) {
        claims := claims[account := claims[account].(token := None, lastStatus := status)];
        cleared := cleared + {token};
        return true;
      }
      return false;
    }

    /** The process reads the provider's response. */
    method Receive(g: RetryAfter.Grid, token: nat, response: Response, finished: real) returns (next: Next)
      requires token in calls && calls[token].phase.InFlight?
      modifies this`calls
      ensures next == Judge(g, old(calls)[token], response, finished)
      ensures View() == Respond(old(View()), g, token, response, finished)
    {
      var call := calls[token];
      next := Judge(g, call, response, finished);
      match next
      case GiveUp => calls := calls - {token};
      case StoreUntil(u) => calls := calls[token := call.(phase := Storing(u), asked := Some(u))];
      case EndWith(status) => calls := calls[token := call.(phase := Ending(status))];
    }

    /** The cooldown's own transaction, on the ledger. */
    method StoreCooldown(token: nat, now: real) returns (stored: bool)
      requires token in calls && calls[token].phase.Storing?
      modifies this`calls, ledger
      ensures stored <==> DeferRefusal(old(ledger.View()), old(calls)[token].account, old(calls)[token].phase.until).None?
      ensures View() == Store(old(View()), token, now)
    {
      var call := calls[token];
      var r := ledger.DeferAccount(call.account, Usage, call.phase.until, now);
      if r.Failure? {
        calls := calls - {token};
        return false;
      }
      calls := calls[token := call.(phase := Ending(CooldownStored))];
      return true;
    }

    method OneTurn(g: RetryAfter.Grid, turn: Turn)
      modifies this, ledger
      ensures View() == Take(old(View()), g, turn)
    {
      match turn
      case DoLedger(step) => ledger.Perform(step);
      case DoBegin(alias, timeout, fallback, now) => var _ := BeginCall(alias, timeout, fallback, now);
      case DoRespond(token, response, finished) =>
        if token in calls && calls[token].phase.InFlight? { var _ := Receive(g, token, response, finished); }
      case DoStore(token, now) =>
        if token in calls && calls[token].phase.Storing? { var _ := StoreCooldown(token, now); }
      case DoEnd(token) =>
        if token in calls && calls[token].phase.Ending? {
          var _ := EndCall(calls[token].account, token, calls[token].phase.status);
        }
      case DoCrash(token) => calls := calls - {token};
    }

    /** Any turns of other processes. */
    method OtherTurns(g: RetryAfter.Grid, turns: seq<Turn>)
      modifies this, ledger
      ensures View() == Play(old(View()), g, turns)
    {
      for i := 0 to |turns|
        invariant View() == Play(old(View()), g, turns[..i])
      {
        assert turns[..i + 1][..i] == turns[..i];
        OneTurn(g, turns[i]);
      }
      assert turns[..|turns|] == turns;
    }

    /** `collect`: a claim it took is cleared when it returns a status, and still taken, with no
        process behind it, when it asks for reconciliation; a rate limit is answered with its
        status only after the cooldown it asked for is on the account. */
    method Collect(g: RetryAfter.Grid, alias: string, timeout: real, fallback: real, response: Response,
                   started: real, finished: real, during: seq<Turn>, between: seq<Turn>)
      returns (r: CollectReply, ghost token: nat, ghost account: string)
      requires Sound(View())
      requires LeaveAlone(during, issued) && LeaveAlone(between, issued)
      modifies this, ledger
      ensures Sound(View())
      ensures r.NotBegun? <==> !BeginReplyOf(old(View()), alias, timeout, fallback, started).Begun?
      ensures r.NotBegun? ==> View() == old(View()) && r.why == BeginReplyOf(old(View()), alias, timeout, fallback, started)
      ensures !r.NotBegun? ==> token == old(issued) && alias in old(ledger.aliases) && account == old(ledger.aliases)[alias]
      ensures r.Done? ==> token in cleared && token !in calls
      ensures r.Reconcile? ==> Lost(View(), account, token)
      ensures r.Done? && RateLimited(response) ==>
                var call := Call(account, started, started + timeout, fallback, InFlight, None);
                && Judge(g, call, response, finished).StoreUntil?
                && StoredCooldown(ledger.View(), account) >= Judge(g, call, response, finished).until
    {
      token, account := issued, "";
      var why := BeginCall(alias, timeout, fallback, started);
      Collector.BeginTurn(old(View()), alias, timeout, fallback, started);
      if !why.Begun? { return NotBegun(why), token, account; }
      account := ledger.aliases[alias];
      r := Await(g, why.token, response, finished, during, between);
    }

    /** The provider's call and what follows it. */
    method Await(g: RetryAfter.Grid, mine: nat, response: Response, finished: real, during: seq<Turn>, between: seq<Turn>)
      returns (r: CollectReply)
      requires Sound(View()) && mine in calls && calls[mine].phase.InFlight?
      requires LeaveAlone(during, mine) && LeaveAlone(between, mine)
      modifies this, ledger
      ensures Sound(View()) && !r.NotBegun?
      ensures r.Done? ==> mine in cleared && mine !in calls
      ensures r.Reconcile? ==> Lost(View(), old(calls)[mine].account, mine)
      ensures r.Done? && RateLimited(response) ==>
                && Judge(g, old(calls)[mine], response, finished).StoreUntil?
                && StoredCooldown(ledger.View(), old(calls)[mine].account) >= Judge(g, old(calls)[mine], response, finished).until
    {
      ghost var w1 := View();
      OtherTurns(g, during);
      OthersKeepCall(g, w1, during, mine);
      ghost var w2 := View();
      var call := calls[mine];
      assert CallSound(w2, mine);
      var next := Receive(g, mine, response, finished);
      Collector.RespondTurn(w2, g, mine, response, finished);
      RateLimitedAsks(g, call, response, finished);
      if next.GiveUp? { return Reconcile; }
      ghost var w3 := View();
      OtherTurns(g, between);
      OthersKeepCall(g, w3, between, mine);
      r := Settle(mine, calls[mine].account, finished);
    }

    /** The rest of `collect` once the response is judged. */
    method Settle(mine: nat, account: string, now: real) returns (r: CollectReply)
      requires Sound(View()) && mine in calls && calls[mine].account == account && !calls[mine].phase.InFlight?
      modifies this, ledger
      ensures Sound(View()) && !r.NotBegun?
      ensures r.Done? ==> mine in cleared && mine !in calls
      ensures r.Reconcile? ==> Lost(View(), account, mine)
      ensures r.Done? && old(calls)[mine].asked.Some? ==> StoredCooldown(ledger.View(), account) >= old(calls)[mine].asked.value
    {
      ghost var w := View();
      assert CallSound(w, mine);
      if calls[mine].phase.Storing? {
        var stored := StoreCooldown(mine, now);
        Collector.StoreTurn(w, mine, now);
        if !stored { return Reconcile; }
      }
      ghost var v := View();
      assert CallSound(v, mine);
      var status := calls[mine].phase.status;
      var ended := EndCall(account, mine, status);
      Collector.EndTurn(v, mine);
      return if ended then Done(status) else Reconcile;
    }
  }

  lemma RateLimitedAsks(g: RetryAfter.Grid, call: Call, response: Response, finished: real)
    ensures RateLimited(response) ==> !Judge(g, call, response, finished).EndWith?
  {
  }

  /** The turns are no turns of the process that holds the token. */
  predicate LeaveAlone(turns: seq<Turn>, token: nat) {
    forall i :: 0 <= i < |turns| ==> !Concerns(turns[i], token)
  }

  predicate Concerns(turn: Turn, token: nat) {
    match turn
    case DoRespond(t, _, _) => t == token
    case DoStore(t, _) => t == token
    case DoEnd(t) => t == token
    case DoCrash(t) => t == token
    case _ => false
  }

  lemma {:induction false} OthersKeepCall(g: RetryAfter.Grid, w: World, turns: seq<Turn>, token: nat)
    requires Sound(w) && token in w.calls && LeaveAlone(turns, token)
    ensures Sound(Play(w, g, turns))
    ensures token in Play(w, g, turns).calls && Play(w, g, turns).calls[token] == w.calls[token]
  {
    if turns != [] {
      var n := |turns| - 1;
      OthersKeepCall(g, w, turns[..n], token);
      var v := Play(w, g, turns[..n]);
      TurnKeepsSound(v, g, turns[n]);
      OtherKeepsCall(g, v, turns[n], token);
    }
  }

  lemma OtherKeepsCall(g: RetryAfter.Grid, w: World, turn: Turn, token: nat)
    requires Sound(w) && token in w.calls && !Concerns(turn, token)
    ensures token in Take(w, g, turn).calls && Take(w, g, turn).calls[token] == w.calls[token]
  {
    assert CallSound(w, token);
    assert Outstanding(w, token, w.calls[token].account);
  }
}
