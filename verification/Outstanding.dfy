/** The bound on outstanding operations (lkrequest-ffi/src/handles_state.rs) under any interleaving of
    sends (lkrequest-ffi/src/request.rs, streaming.rs). In the asynchronous ones, plain or streaming,
    the load and the compare-exchange of a reservation, the taking of the request's configuration and
    each release are separate steps; the blocking ones take the configuration without a reservation. */
module Outstanding {

  datatype Phase =
    | Checking
    | Reserving
    | Loaded(seen: nat)
    | Reserved
    | Taken
    | Refunding
    | Live
    | Finished

  /** A call on a request; `won` once it has obtained the configuration. */
  datatype Call = Call(request: nat, phase: Phase, won: bool)

  /** `consumed` holds the requests whose configuration is gone. */
  datatype Shared = Shared(calls: map<nat, Call>, consumed: set<nat>, counter: int, max: nat)

  predicate Holds(p: Phase) {
    p.Reserved? || p.Taken? || p.Refunding? || p.Live?
  }

  function Holders(calls: map<nat, Call>): set<nat> {
    set t | t in calls && Holds(calls[t].phase)
  }

  function Move(s: Shared, t: nat, p: Phase): Shared
    requires t in s.calls
  {
    s.(calls := s.calls[t := s.calls[t].(phase := p)])
  }

  /** The relaxed load may see any value, stale ones included. */
  datatype Action =
    | Begin(request: nat) | SendBlocking(request: nat) | Check | Load(seen: nat) | CompareExchange | TakeConfig | CloneSession(ok: bool) | Refund | Free

  /** One atomic action of call `t`. */
  predicate Step(s: Shared, t: nat, a: Action, s': Shared) {
    match a
    case Begin(request) => t !in s.calls && s' == s.(calls := s.calls[t := Call(request, Checking, false)])
    case SendBlocking(request) =>
      && t !in s.calls
      && s' == s.(calls := s.calls[t := Call(request, Finished, request !in s.consumed)], consumed := s.consumed + {request})
    case Check =>
      && t in s.calls && s.calls[t].phase.Checking?
      && s' == Move(s, t, if s.calls[t].request in s.consumed then Finished else Reserving)
    case Load(seen) =>
      t in s.calls && s.calls[t].phase.Reserving? && s' == Move(s, t, if seen >= s.max then Finished else Loaded(seen))
    case CompareExchange =>
      && t in s.calls && s.calls[t].phase.Loaded?
      && s' == if s.counter == s.calls[t].phase.seen then Move(s, t, Reserved).(counter := s.counter + 1)
               else Move(s, t, Reserving)
    case TakeConfig =>
      && t in s.calls && s.calls[t].phase.Reserved?
      && var r := s.calls[t].request;
         s' == if r in s.consumed then Move(s, t, Refunding)
               else s.(calls := s.calls[t := Call(r, Taken, true)], consumed := s.consumed + {r})
    case CloneSession(ok) =>
      t in s.calls && s.calls[t].phase.Taken? && s' == Move(s, t, if ok then Live else Refunding)
    case Refund =>
      t in s.calls && s.calls[t].phase.Refunding? && s' == Move(s, t, Finished).(counter := s.counter - 1)
    case Free =>
      t in s.calls && s.calls[t].phase.Live? && s' == Move(s, t, Finished).(counter := s.counter - 1)
  }

  predicate Won(s: Shared, t: nat) {
    t in s.calls && s.calls[t].won
  }

  /** The counter counts exactly the reservations held, within the bound. */
  predicate CountOk(s: Shared) {
    && s.counter == |Holders(s.calls)| && 0 <= s.counter <= s.max
    && (forall t :: t in s.calls && s.calls[t].phase.Loaded? ==> s.calls[t].phase.seen < s.max)
  }

  /** A configuration has been obtained by one call at most, and then its request is consumed. */
  ghost predicate WinnersOk(s: Shared) {
    && (forall t :: t in s.calls && (s.calls[t].phase.Taken? || s.calls[t].phase.Live?) ==> s.calls[t].won)
    && (forall t :: Won(s, t) ==> s.calls[t].request in s.consumed)
    && (forall t, u :: Won(s, t) && Won(s, u) && s.calls[t].request == s.calls[u].request ==> t == u)
  }

  lemma HoldersMove(s: Shared, t: nat, c: Call)
    requires t in s.calls
    ensures var h, h' := Holders(s.calls), Holders(s.calls[t := c]);
            |h'| == |h| + (if Holds(c.phase) then 1 else 0) - (if Holds(s.calls[t].phase) then 1 else 0)
    ensures Holds(s.calls[t].phase) ==> |Holders(s.calls)| > 0
  {
    var h, h' := Holders(s.calls), Holders(s.calls[t := c]);
    if Holds(s.calls[t].phase) == Holds(c.phase) {
      assert h' == h;
    } else if Holds(c.phase) {
      assert h' == h + {t};
    } else {
      assert h == h' + {t};
    }
    if Holds(s.calls[t].phase) {
      assert t in h;
    }
  }

  lemma HoldersBegin(calls: map<nat, Call>, t: nat, c: Call)
    requires t !in calls && !Holds(c.phase)
    ensures Holders(calls[t := c]) == Holders(calls)
  {
  }

  lemma StepCounts(s: Shared, t: nat, a: Action, s': Shared)
    requires CountOk(s) && Step(s, t, a, s')
    ensures CountOk(s')
  {
    if a.Begin? || a.SendBlocking? {
      HoldersBegin(s.calls, t, s'.calls[t]);
    } else {
      HoldersMove(s, t, s'.calls[t]);
      assert s'.calls == s.calls[t := s'.calls[t]];
    }
  }

  lemma StepWinners(s: Shared, t: nat, a: Action, s': Shared)
    requires WinnersOk(s) && Step(s, t, a, s')
    ensures WinnersOk(s')
  {
    assert forall u :: u != t ==> (u in s'.calls <==> u in s.calls) && (u in s.calls ==> s'.calls[u] == s.calls[u]);
    assert s.consumed <= s'.consumed;
  }

  datatype Event = Event(call: nat, action: Action)

  ghost predicate Run(ss: seq<Shared>, es: seq<Event>, max: nat) {
    && |ss| == |es| + 1 && ss[0] == Shared(map[], {}, 0, max)
    && forall i :: 0 <= i < |es| ==> Step(ss[i], es[i].call, es[i].action, ss[i + 1])
  }

  lemma {:induction false} RunInv(ss: seq<Shared>, es: seq<Event>, max: nat, i: nat)
    requires Run(ss, es, max) && i < |ss|
    ensures CountOk(ss[i]) && WinnersOk(ss[i]) && ss[i].max == max
  {
    if i == 0 {
      assert Holders(ss[0].calls) == {};
    } else {
      RunInv(ss, es, max, i - 1);
      StepCounts(ss[i - 1], es[i - 1].call, es[i - 1].action, ss[i]);
      StepWinners(ss[i - 1], es[i - 1].call, es[i - 1].action, ss[i]);
    }
  }

  /** In every interleaving the counter is the number of reservations in flight plus live handles,
      never above the limit; and every release finds it positive, so it never underflows. */
  lemma CounterIsExact(ss: seq<Shared>, es: seq<Event>, max: nat, i: nat)
    requires Run(ss, es, max) && i < |ss|
    ensures ss[i].counter == |Holders(ss[i].calls)| && 0 <= ss[i].counter <= max
    ensures i < |es| && (es[i].action.Refund? || es[i].action.Free?) ==> ss[i].counter > 0
  {
    RunInv(ss, es, max, i);
    if i < |es| && (es[i].action.Refund? || es[i].action.Free?) {
      assert Step(ss[i], es[i].call, es[i].action, ss[i + 1]);
      HoldersMove(ss[i], es[i].call, ss[i].calls[es[i].call]);
    }
  }

  /** At most one call per request obtains its configuration, in whatever order they run and whichever
      of them block. */
  lemma OneWinner(ss: seq<Shared>, es: seq<Event>, max: nat, i: nat, t: nat, u: nat)
    requires Run(ss, es, max) && i < |ss| && t in ss[i].calls && u in ss[i].calls && t != u
    requires ss[i].calls[t].request == ss[i].calls[u].request
    ensures !(ss[i].calls[t].won && ss[i].calls[u].won)
    ensures !(ss[i].calls[t].phase.Live? && ss[i].calls[u].phase.Live?)
  {
    RunInv(ss, es, max, i);
  }

  /** When every call has returned, only live handles are still counted: losers gave theirs back. */
  lemma LosersGiveBack(ss: seq<Shared>, es: seq<Event>, max: nat, i: nat)
    requires Run(ss, es, max) && i < |ss|
    requires forall t :: t in ss[i].calls ==> ss[i].calls[t].phase.Finished? || ss[i].calls[t].phase.Live?
    ensures ss[i].counter == |set t | t in ss[i].calls && ss[i].calls[t].phase.Live?|
  {
    RunInv(ss, es, max, i);
    assert Holders(ss[i].calls) == set t | t in ss[i].calls && ss[i].calls[t].phase.Live?;
  }

  lemma {:induction false} FinishedStays(ss: seq<Shared>, es: seq<Event>, max: nat, i: nat, j: nat, t: nat)
    requires Run(ss, es, max) && i <= j < |ss| && t in ss[i].calls && ss[i].calls[t].phase.Finished?
    ensures t in ss[j].calls && ss[j].calls[t] == ss[i].calls[t]
  {
    if i < j {
      FinishedStays(ss, es, max, i, j - 1, t);
      assert Step(ss[j - 1], es[j - 1].call, es[j - 1].action, ss[j]);
    }
  }

  /** A send that finds its request consumed when it looks is refused there: it never reserves, and never
      obtains anything. */
  lemma LateSendsRefused(ss: seq<Shared>, es: seq<Event>, max: nat, i: nat, j: nat)
    requires Run(ss, es, max) && i < j < |ss| && es[i].action.Check? && es[i].call in ss[i].calls
    requires ss[i].calls[es[i].call].request in ss[i].consumed
    ensures es[i].call in ss[j].calls && ss[j].calls[es[i].call].phase.Finished?
    ensures ss[j].calls[es[i].call].won == ss[i].calls[es[i].call].won && ss[i + 1].counter == ss[i].counter
  {
    assert Step(ss[i], es[i].call, es[i].action, ss[i + 1]);
    FinishedStays(ss, es, max, i + 1, j, es[i].call);
  }
}
