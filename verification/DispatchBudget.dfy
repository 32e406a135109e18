/**
 The tool-server's /execute handler: every request loads the shared dispatch counter, checks it against the
 capability policy, resolves its tool, and only then counts itself. Handlers are interleaved at those points.
 */
module DispatchBudget {
  import opened Wrappers
  import opened Text

  /** The capability envelope; None stands for "no policy", which permits everything. */
  datatype Policy = Policy(tools: seq<string>, hosts: seq<string>, maxRequests: int, notAfter: Option<int>)

  /** A request the handler could decode, with the hosts its arguments refer to, or one it could not. */
  datatype Request = Malformed | Call(tool: string, hosts: seq<string>)

  predicate HostAllowed(allowed: seq<string>, h: string) {
    exists a :: a in allowed && Lower(Trim(a, GO_SPACE)) == Lower(h)
  }

  /** Expiry, then tool, then budget, then every target host. */
  predicate Allow(policy: Option<Policy>, tool: string, hosts: seq<string>, count: nat, now: int) {
    match policy
    case None => true
    case Some(p) =>
      && (p.notAfter.Some? ==> now <= p.notAfter.value)
      && (p.tools != [] ==> tool in p.tools)
      && (p.maxRequests > 0 ==> count < p.maxRequests)
      && (p.hosts != [] ==> forall h :: h in hosts ==> HostAllowed(p.hosts, h))
  }

  /** A request that passed the check: the counter value it saw, and when. */
  datatype Ticket = Ticket(tool: string, hosts: seq<string>, seen: nat, now: int)

  /** The counter, the handlers between their check and their count, and everything dispatched so far. */
  datatype Server = Server(count: nat, window: map<nat, Ticket>, dispatched: seq<Ticket>)

  const IDLE := Server(0, map[], [])

  /** A request arrives at a free handler, or a checked handler resolves its tool. */
  datatype Event = Arrive(handler: nat, request: Request, now: int) | Resolve(handler: nat)

  datatype Config = Config(policy: Option<Policy>, known: set<string>)

  function Step(c: Config, s: Server, e: Event): Server {
    match e
    case Arrive(h, Malformed, _) => s
    case Arrive(h, Call(tool, hosts), now) =>
      if h in s.window || tool == "" || !Allow(c.policy, tool, hosts, s.count, now) then s
      else s.(window := s.window[h := Ticket(tool, hosts, s.count, now)])
    case Resolve(h) =>
      if h !in s.window then s
      else if s.window[h].tool !in c.known then s.(window := s.window - {h})
      else Server(s.count + 1, s.window - {h}, s.dispatched + [s.window[h]])
  }

  function After(c: Config, s: Server, es: seq<Event>): Server
    decreases |es|
  {
    if es == [] then s else After(c, Step(c, s, es[0]), es[1..])
  }

  /** Never more than k handlers are between their check and their count. */
  predicate Overlap(c: Config, s: Server, es: seq<Event>, k: nat)
    decreases |es|
  {
    |s.window| <= k && (es == [] || Overlap(c, Step(c, s, es[0]), es[1..], k))
  }

  // ----- the bound -----

  ghost predicate WithinBudget(s: Server, budget: nat, k: nat) {
    s.count + |s.window| <= budget + k - 1
  }

  lemma StepWithinBudget(c: Config, s: Server, e: Event, k: nat)
    requires c.policy.Some? && c.policy.value.maxRequests > 0 && k >= 1
    requires WithinBudget(s, c.policy.value.maxRequests, k) && |Step(c, s, e).window| <= k
    ensures WithinBudget(Step(c, s, e), c.policy.value.maxRequests, k)
  {
    match e
    case Arrive(_, _, _) =>
    case Resolve(h) =>
      if h in s.window {
        assert s.window == (s.window - {h})[h := s.window[h]];
      }
  }

  lemma {:induction false} BudgetFrom(c: Config, s: Server, es: seq<Event>, k: nat)
    requires c.policy.Some? && c.policy.value.maxRequests > 0 && k >= 1
    requires WithinBudget(s, c.policy.value.maxRequests, k) && Overlap(c, s, es, k)
    ensures After(c, s, es).count + |After(c, s, es).window| <= c.policy.value.maxRequests + k - 1
    decreases |es|
  {
    if es != [] {
      StepWithinBudget(c, s, es[0], k);
      BudgetFrom(c, Step(c, s, es[0]), es[1..], k);
    }
  }

  /** With at most k handlers between check and count, the budget can be exceeded by at most k - 1 dispatches. */
  lemma BudgetBound(c: Config, es: seq<Event>, k: nat)
    requires c.policy.Some? && c.policy.value.maxRequests > 0 && k >= 1 && Overlap(c, IDLE, es, k)
    ensures After(c, IDLE, es).count <= c.policy.value.maxRequests + k - 1
    ensures k == 1 ==> After(c, IDLE, es).count <= c.policy.value.maxRequests
  {
    BudgetFrom(c, IDLE, es, k);
  }

  // ----- one request at a time -----

  /** The same request n times, each answered before the next arrives. */
  function OneByOne(tool: string, hosts: seq<string>, now: int, n: nat): seq<Event> {
    if n == 0 then [] else OneByOne(tool, hosts, now, n - 1) + [Arrive(0, Call(tool, hosts), now), Resolve(0)]
  }

  lemma OneRequest(c: Config, s: Server, tool: string, hosts: seq<string>, now: int)
    requires s.window == map[] && tool != "" && tool in c.known
    ensures var s' := After(c, s, [Arrive(0, Call(tool, hosts), now), Resolve(0)]);
            s'.window == map[] && s'.count == s.count + if Allow(c.policy, tool, hosts, s.count, now) then 1 else 0
  {
    var arrive, resolve := Arrive(0, Call(tool, hosts), now), Resolve(0);
    var s1 := Step(c, s, arrive);
    assert [arrive, resolve][1..] == [resolve] && [resolve][1..] == [];
    assert After(c, s1, [resolve]) == After(c, Step(c, s1, resolve), []);
    assert After(c, s, [arrive, resolve]) == Step(c, s1, resolve);
  }

  /** The budget is the only part of the check that looks at the counter. */
  lemma OnlyBudgetCounts(c: Config, tool: string, hosts: seq<string>, now: int, count: nat)
    requires c.policy.Some? && c.policy.value.maxRequests > 0 && Allow(c.policy, tool, hosts, 0, now)
    ensures Allow(c.policy, tool, hosts, count, now) <==> count < c.policy.value.maxRequests
  {
  }

  /** Serial use spends the budget exactly: every request is served until it is exhausted, and none after. */
  lemma {:induction false} SerialUseSpendsTheBudget(c: Config, tool: string, hosts: seq<string>, now: int, n: nat)
    requires c.policy.Some? && c.policy.value.maxRequests > 0 && tool != "" && tool in c.known
    requires Allow(c.policy, tool, hosts, 0, now)
    ensures var s := After(c, IDLE, OneByOne(tool, hosts, now, n));
            s.window == map[] && s.count == if n < c.policy.value.maxRequests then n else c.policy.value.maxRequests
  {
    if n > 0 {
      SerialUseSpendsTheBudget(c, tool, hosts, now, n - 1);
      OneRequestMore(c, OneByOne(tool, hosts, now, n - 1), tool, hosts, now);
    }
  }

  lemma OneRequestMore(c: Config, before: seq<Event>, tool: string, hosts: seq<string>, now: int)
    requires c.policy.Some? && c.policy.value.maxRequests > 0 && tool != "" && tool in c.known
    requires Allow(c.policy, tool, hosts, 0, now) && After(c, IDLE, before).window == map[]
    ensures var s := After(c, IDLE, before);
            var s' := After(c, IDLE, before + [Arrive(0, Call(tool, hosts), now), Resolve(0)]);
            s'.window == map[] && s'.count == s.count + if s.count < c.policy.value.maxRequests then 1 else 0
  {
    var s := After(c, IDLE, before);
    Concat(c, IDLE, before, [Arrive(0, Call(tool, hosts), now), Resolve(0)], 1);
    OneRequest(c, s, tool, hosts, now);
    OnlyBudgetCounts(c, tool, hosts, now, s.count);
  }

  // ----- what is dispatched at all -----

  ghost predicate Permitted(c: Config, t: Ticket) {
    t.tool != "" && Allow(c.policy, t.tool, t.hosts, t.seen, t.now)
  }

  ghost predicate Accounted(c: Config, s: Server) {
    && s.count == |s.dispatched|
    && (forall h :: h in s.window ==> Permitted(c, s.window[h]))
    && (forall t :: t in s.dispatched ==> Permitted(c, t) && t.tool in c.known)
  }

  /** The counter counts exactly the dispatches, and each of them passed the policy when it was checked. */
  lemma {:induction false} OnlyPermittedIsDispatched(c: Config, s: Server, es: seq<Event>)
    requires Accounted(c, s)
    ensures Accounted(c, After(c, s, es))
    decreases |es|
  {
    if es != [] {
      OnlyPermittedIsDispatched(c, Step(c, s, es[0]), es[1..]);
    }
  }

  /** Nothing outside the policy is ever dispatched, however the handlers overlap. */
  lemma DispatchedInScope(c: Config, es: seq<Event>, t: Ticket)
    requires t in After(c, IDLE, es).dispatched
    ensures t.tool in c.known
    ensures c.policy.Some? ==>
              var p := c.policy.value;
              && (p.notAfter.Some? ==> t.now <= p.notAfter.value)
              && (p.tools == [] || t.tool in p.tools)
              && (p.maxRequests <= 0 || t.seen < p.maxRequests)
              && (p.hosts == [] || forall h :: h in t.hosts ==> InScope(p.hosts, h))
  {
    OnlyPermittedIsDispatched(c, IDLE, es);
  }

  /** One of the listed names, disregarding white space around it and letter case. */
  ghost predicate InScope(listed: seq<string>, host: string) {
    exists i :: 0 <= i < |listed| && Lower(Trim(listed[i], GO_SPACE)) == Lower(host)
  }

  /** A request met by a free handler is dispatched exactly when each part of the policy lets it through. */
  lemma ServedIff(c: Config, s: Server, h: nat, tool: string, hosts: seq<string>, now: int)
    requires h !in s.window
    ensures var s' := After(c, s, [Arrive(h, Call(tool, hosts), now), Resolve(h)]);
            var free := match c.policy
              case None => true
              case Some(p) =>
                && !(p.notAfter.Some? && p.notAfter.value < now)
                && !(p.tools != [] && tool !in p.tools)
                && !(p.maxRequests > 0 && p.maxRequests <= s.count)
                && !(p.hosts != [] && exists host :: host in hosts && !InScope(p.hosts, host));
            if tool != "" && tool in c.known && free
            then s' == Server(s.count + 1, s.window, s.dispatched + [Ticket(tool, hosts, s.count, now)])
            else s' == s
  {
    var arrive, resolve := Arrive(h, Call(tool, hosts), now), Resolve(h);
    var s1 := Step(c, s, arrive);
    assert [arrive, resolve][1..] == [resolve] && [resolve][1..] == [];
    assert After(c, s1, [resolve]) == After(c, Step(c, s1, resolve), []);
    assert After(c, s, [arrive, resolve]) == Step(c, s1, resolve);
    assert s.window[h := Ticket(tool, hosts, s.count, now)] - {h} == s.window;
    if c.policy.Some? {
      var listed := c.policy.value.hosts;
      forall host | host in hosts ensures HostAllowed(listed, host) <==> InScope(listed, host) {
        AllowedIsInScope(listed, host);
      }
    }
  }

  lemma AllowedIsInScope(listed: seq<string>, host: string)
    ensures HostAllowed(listed, host) <==> InScope(listed, host)
  {
    forall i | 0 <= i < |listed| && Lower(Trim(listed[i], GO_SPACE)) == Lower(host) ensures HostAllowed(listed, host) {
      assert listed[i] in listed;
    }
  }

  /** A request that cannot be dispatched while the counter stands where it is. */
  predicate Hopeless(c: Config, count: nat, e: Event) {
    e.Arrive? && e.request.Call? ==>
      e.request.tool !in c.known || !Allow(c.policy, e.request.tool, e.request.hosts, count, e.now)
  }

  /** Refused requests and unknown tools leave the counter alone, however many there are and however they overlap. */
  lemma {:induction false} UnservedRequestsCostNothing(c: Config, s: Server, es: seq<Event>)
    requires forall h :: h in s.window ==> s.window[h].tool !in c.known
    requires forall e :: e in es ==> Hopeless(c, s.count, e)
    ensures After(c, s, es).count == s.count && After(c, s, es).dispatched == s.dispatched
    decreases |es|
  {
    if es != [] {
      assert Hopeless(c, s.count, es[0]) by { assert es[0] in es; }
      UnservedRequestsCostNothing(c, Step(c, s, es[0]), es[1..]);
    }
  }

  // ----- the bound is tight -----

  ghost predicate Reaches(c: Config, s: Server, s': Server, k: nat) {
    exists es :: Overlap(c, s, es, k) && After(c, s, es) == s'
  }

  lemma {:induction false} Concat(c: Config, s: Server, a: seq<Event>, b: seq<Event>, k: nat)
    ensures After(c, s, a + b) == After(c, After(c, s, a), b)
    ensures Overlap(c, s, a, k) && Overlap(c, After(c, s, a), b, k) ==> Overlap(c, s, a + b, k)
    decreases |a|
  {
    if a == [] {
      assert a + b == b;
    } else {
      assert (a + b)[1..] == a[1..] + b;
      Concat(c, Step(c, s, a[0]), a[1..], b, k);
    }
  }

  lemma ReachesTransitive(c: Config, s: Server, s': Server, s'': Server, k: nat)
    requires Reaches(c, s, s', k) && Reaches(c, s', s'', k)
    ensures Reaches(c, s, s'', k)
  {
    var a :| Overlap(c, s, a, k) && After(c, s, a) == s';
    var b :| Overlap(c, s', b, k) && After(c, s', b) == s'';
    Concat(c, s, a, b, k);
  }

  lemma StepReaches(c: Config, s: Server, e: Event, k: nat)
    requires |s.window| <= k && |Step(c, s, e).window| <= k
    ensures Reaches(c, s, Step(c, s, e), k)
  {
    var es, s' := [e], Step(c, s, e);
    assert es[1..] == [];
    assert Overlap(c, s', [], k) && After(c, s', []) == s';
    assert Overlap(c, s, es, k) && After(c, s, es) == s';
  }

  lemma ReachesItself(c: Config, s: Server, k: nat)
    requires |s.window| <= k
    ensures Reaches(c, s, s, k)
  {
    assert Overlap(c, s, [], k) && After(c, s, []) == s;
  }

  /** Open n more handlers, all of which see a counter below the budget. */
  lemma {:induction false} OpenWindow(
    c: Config, s: Server, tool: string, hosts: seq<string>, now: int, n: nat, k: nat) returns (s': Server)
    requires tool != "" && tool in c.known && Allow(c.policy, tool, hosts, s.count, now)
    requires (forall h :: h in s.window ==> h < |s.window| && s.window[h].tool == tool) && |s.window| + n <= k
    ensures Reaches(c, s, s', k) && s'.count == s.count && |s'.window| == |s.window| + n
    ensures forall h :: h in s'.window ==> h < |s'.window| && s'.window[h].tool == tool
    decreases n
  {
    if n == 0 {
      s' := s;
      ReachesItself(c, s, k);
    } else {
      var e := Arrive(|s.window|, Call(tool, hosts), now);
      var s1 := Step(c, s, e);
      StepReaches(c, s, e, k);
      s' := OpenWindow(c, s1, tool, hosts, now, n - 1, k);
      ReachesTransitive(c, s, s1, s', k);
    }
  }

  /** Let every open handler dispatch. */
  lemma {:induction false} CloseWindow(c: Config, s: Server, tool: string, k: nat) returns (s': Server)
    requires tool in c.known && (forall h :: h in s.window ==> s.window[h].tool == tool) && |s.window| <= k
    ensures Reaches(c, s, s', k) && s'.count == s.count + |s.window| && s'.window == map[]
    decreases |s.window|
  {
    if s.window == map[] {
      s' := s;
      ReachesItself(c, s, k);
    } else {
      var h :| h in s.window;
      var s1 := Step(c, s, Resolve(h));
      assert s.window == s1.window[h := s.window[h]];
      StepReaches(c, s, Resolve(h), k);
      s' := CloseWindow(c, s1, tool, k);
      ReachesTransitive(c, s, s1, s', k);
    }
  }

  /** Serve n requests one after the other, below the budget. */
  lemma {:induction false} ServeSerially(
    c: Config, s: Server, tool: string, hosts: seq<string>, now: int, n: nat, k: nat) returns (s': Server)
    requires tool != "" && tool in c.known && s.window == map[] && k >= 1
    requires forall m: nat :: s.count <= m < s.count + n ==> Allow(c.policy, tool, hosts, m, now)
    ensures Reaches(c, s, s', k) && s'.count == s.count + n && s'.window == map[]
    decreases n
  {
    if n == 0 {
      s' := s;
      ReachesItself(c, s, k);
    } else {
      var s1 := OpenWindow(c, s, tool, hosts, now, 1, k);
      var s2 := CloseWindow(c, s1, tool, k);
      var s3 := ServeSerially(c, s2, tool, hosts, now, n - 1, k);
      ReachesTransitive(c, s, s1, s2, k);
      ReachesTransitive(c, s, s2, s3, k);
      s' := s3;
    }
  }

  /** Wherever a request would be served at all, some interleaving reaches the bound exactly. */
  lemma BudgetIsReached(c: Config, tool: string, hosts: seq<string>, now: int, k: nat) returns (es: seq<Event>)
    requires c.policy.Some? && c.policy.value.maxRequests > 0 && k >= 1 && tool != "" && tool in c.known
    requires Allow(c.policy, tool, hosts, 0, now)
    ensures Overlap(c, IDLE, es, k) && After(c, IDLE, es).count == c.policy.value.maxRequests + k - 1
  {
    var budget := c.policy.value.maxRequests;
    forall m: nat { OnlyBudgetCounts(c, tool, hosts, now, m); }
    var s1 := ServeSerially(c, IDLE, tool, hosts, now, budget - 1, k);
    var s2 := OpenWindow(c, s1, tool, hosts, now, k, k);
    var s3 := CloseWindow(c, s2, tool, k);
    ReachesTransitive(c, IDLE, s1, s2, k);
    ReachesTransitive(c, IDLE, s2, s3, k);
    es :| Overlap(c, IDLE, es, k) && After(c, IDLE, es) == s3;
  }

  /** For every budget and overlap, some interleaving reaches the bound exactly. */
  lemma BudgetBoundIsTight(budget: nat, k: nat, tool: string) returns (c: Config, es: seq<Event>)
    requires budget >= 1 && k >= 1 && tool != ""
    ensures c.policy.Some? && c.policy.value.maxRequests == budget && Overlap(c, IDLE, es, k)
    ensures After(c, IDLE, es).count == budget + k - 1
  {
    c := Config(Some(Policy([], [], budget, None)), {tool});
    es := BudgetIsReached(c, tool, [], 0, k);
  }

  /** No overlap of up to k handlers takes the counter past the budget. */
  ghost predicate BudgetHolds(c: Config, k: nat)
    requires c.policy.Some?
  {
    forall es :: Overlap(c, IDLE, es, k) ==> After(c, IDLE, es).count <= c.policy.value.maxRequests
  }

  /** Under a policy that would serve any request at all, the budget is kept exactly when handlers never overlap. */
  lemma BudgetHoldsIff(c: Config, tool: string, hosts: seq<string>, now: int, k: nat)
    requires c.policy.Some? && c.policy.value.maxRequests > 0 && k >= 1 && tool != "" && tool in c.known
    requires Allow(c.policy, tool, hosts, 0, now)
    ensures BudgetHolds(c, k) <==> k == 1
  {
    if k == 1 {
      forall es | Overlap(c, IDLE, es, k) ensures After(c, IDLE, es).count <= c.policy.value.maxRequests {
        BudgetBound(c, es, k);
      }
    } else {
      var es := BudgetIsReached(c, tool, hosts, now, k);
    }
  }
}
