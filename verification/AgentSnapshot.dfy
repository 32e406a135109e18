/**
 Rendering the aggregated installations as a snapshot: maps are iterated in any order, then sorted three
 times. When that makes the snapshot a function of the events, and what its tool counts add up to.
 */
module AgentSnapshot {
  import opened Sequences
  import opened Sorting
  import opened Text
  import opened AgentEvents

  datatype ToolUse = ToolUse(tool: string, count: nat)

  datatype Agent = Agent(
    name: string, user: string, host: string, model: string, sessions: nat, lastSeen: int,
    servers: seq<string>, toolUse: seq<ToolUse>)

  predicate ByName(a: string, b: string) {
    Before(a, b)
  }

  /** More used first, then by name. */
  predicate ByUse(a: ToolUse, b: ToolUse) {
    if a.count != b.count then a.count > b.count else Before(a.tool, b.tool)
  }

  predicate ByLabel(a: Agent, b: Agent) {
    if a.name != b.name then Before(a.name, b.name)
    else if a.user != b.user then Before(a.user, b.user)
    else Before(a.host, b.host)
  }

  lemma ByNameOrders()
    ensures StrictWeak(ByName)
    ensures forall a, b :: Tied(a, b, ByName) ==> a == b
  {
    forall a: string, b: string { BeforeTotal(a, b); }
    forall a: string, b: string, c: string { BeforeTransitive(a, b, c); }
  }

  lemma ByUseOrders()
    ensures StrictWeak(ByUse)
    ensures forall a, b :: Tied(a, b, ByUse) ==> a == b
  {
    forall a: string, b: string { BeforeTotal(a, b); }
    forall a: string, b: string, c: string { BeforeTransitive(a, b, c); }
  }

  lemma ByLabelOrders()
    ensures StrictWeak(ByLabel)
    ensures forall a, b :: Tied(a, b, ByLabel) <==> a.name == b.name && a.user == b.user && a.host == b.host
  {
    forall a: string, b: string { BeforeTotal(a, b); }
    forall a: string, b: string, c: string { BeforeTransitive(a, b, c); }
  }

  // ----- one agent -----

  function ToolItems(tools: map<string, nat>): set<ToolUse> {
    set t | t in tools :: ToolUse(t, tools[t])
  }

  /** The record an accumulator is rendered as: its set and map listed in sorted order. */
  ghost predicate IsAgent(a: Agent, acc: Acc) {
    && a.name == acc.name && a.user == acc.user && a.host == acc.host && a.model == acc.model
    && a.sessions == |acc.sessions| && a.lastSeen == acc.lastSeen
    && Lists(a.servers, acc.servers) && Sorted(a.servers, ByName)
    && Lists(a.toolUse, ToolItems(acc.tools)) && Sorted(a.toolUse, ByUse)
  }

  method Finish(acc: Acc) returns (a: Agent)
    ensures IsAgent(a, acc)
  {
    var names := ListOf(acc.servers);
    var uses := ListOf(ToolItems(acc.tools));
    ByNameOrders();
    ByUseOrders();
    SortSorts(names, ByName);
    SortSorts(uses, ByUse);
    SortedStillLists(names, acc.servers, ByName);
    SortedStillLists(uses, ToolItems(acc.tools), ByUse);
    a := Agent(acc.name, acc.user, acc.host, acc.model, |acc.sessions|, acc.lastSeen,
               Sort(names, ByName), Sort(uses, ByUse));
  }

  /** Map iteration order cannot show in one agent's record. */
  lemma AgentIsDetermined(a: Agent, b: Agent, acc: Acc)
    requires IsAgent(a, acc) && IsAgent(b, acc)
    ensures a == b
  {
    ByNameOrders();
    ByUseOrders();
    ListsRearranged(a.servers, b.servers, acc.servers);
    ListsRearranged(a.toolUse, b.toolUse, ToolItems(acc.tools));
    SortedUnique(a.servers, b.servers, ByName);
    SortedUnique(a.toolUse, b.toolUse, ByUse);
  }

  lemma AgentExists(acc: Acc)
    ensures exists a :: IsAgent(a, acc)
  {
    var names := SetLists(acc.servers);
    var uses := SetLists(ToolItems(acc.tools));
    ByNameOrders();
    ByUseOrders();
    SortSorts(names, ByName);
    SortSorts(uses, ByUse);
    SortedStillLists(names, acc.servers, ByName);
    SortedStillLists(uses, ToolItems(acc.tools), ByUse);
    assert IsAgent(Agent(acc.name, acc.user, acc.host, acc.model, |acc.sessions|, acc.lastSeen,
                         Sort(names, ByName), Sort(uses, ByUse)), acc);
  }

  ghost function AgentFor(acc: Acc): (a: Agent)
    ensures IsAgent(a, acc)
  {
    AgentExists(acc);
    var a :| IsAgent(a, acc);
    a
  }

  // ----- the snapshot -----

  ghost function Agents(byKey: map<Key, Acc>, order: seq<Key>): seq<Agent> {
    if order == [] || order[|order| - 1] !in byKey then []
    else Agents(byKey, order[..|order| - 1]) + [AgentFor(byKey[order[|order| - 1]])]
  }

  /** A snapshot that some map-iteration order and some sorting of ties could produce. */
  ghost predicate IsSnapshot(out: seq<Agent>, byKey: map<Key, Acc>) {
    && Sorted(out, ByLabel)
    && exists order :: Lists(order, byKey.Keys) && multiset(out) == multiset(Agents(byKey, order))
  }

  lemma AgentsSnoc(byKey: map<Key, Acc>, order: seq<Key>, k: Key)
    requires k in byKey
    ensures Agents(byKey, order + [k]) == Agents(byKey, order) + [AgentFor(byKey[k])]
  {
    assert (order + [k])[..|order|] == order;
  }

  method Collect(accs: map<Key, Acc>) returns (out: seq<Agent>, ghost order: seq<Key>)
    ensures Lists(order, accs.Keys) && out == Agents(accs, order)
  {
    out, order := [], [];
    var todo := accs.Keys;
    while todo != {}
      invariant todo <= accs.Keys && Lists(order, accs.Keys - todo)
      invariant out == Agents(accs, order)
      decreases |todo|
    {
      var k :| k in todo;
      var a := Finish(accs[k]);
      AgentIsDetermined(a, AgentFor(accs[k]), accs[k]);
      AgentsSnoc(accs, order, k);
      out, order, todo := out + [a], order + [k], todo - {k};
    }
  }

  /** A snapshot of some aggregation of the events. */
  ghost predicate IsSnapshotOf(out: seq<Agent>, es: seq<Event>) {
    exists byKey :: Aggregates(byKey, es) && IsSnapshot(out, byKey)
  }

  method ToSnapshot(es: seq<Event>) returns (out: seq<Agent>)
    ensures IsSnapshotOf(out, es)
  {
    var accs := Aggregate(es);
    var unsorted;
    ghost var order;
    unsorted, order := Collect(accs);
    out := Arrange(unsorted, accs, order);
  }

  method Arrange(unsorted: seq<Agent>, ghost byKey: map<Key, Acc>, ghost order: seq<Key>) returns (out: seq<Agent>)
    requires Lists(order, byKey.Keys) && unsorted == Agents(byKey, order)
    ensures IsSnapshot(out, byKey)
  {
    ByLabelOrders();
    SortSorts(unsorted, ByLabel);
    out := Sort(unsorted, ByLabel);
  }

  // ----- when the snapshot is determined -----

  lemma {:induction false} AgentsConcat(byKey: map<Key, Acc>, a: seq<Key>, b: seq<Key>)
    requires forall k :: k in a || k in b ==> k in byKey
    ensures Agents(byKey, a + b) == Agents(byKey, a) + Agents(byKey, b)
  {
    if b == [] {
      assert a + b == a;
    } else {
      var init := b[..|b| - 1];
      assert (a + b)[..|a + b| - 1] == a + init;
      AgentsConcat(byKey, a, init);
    }
  }

  lemma AgentsMoved(byKey: map<Key, Acc>, p: seq<Key>, k: Key, q: seq<Key>)
    requires k in byKey && forall x :: x in p || x in q ==> x in byKey
    ensures multiset(Agents(byKey, (p + [k]) + q)) == multiset(Agents(byKey, p + q)) + multiset{AgentFor(byKey[k])}
  {
    AgentsConcat(byKey, p + [k], q);
    AgentsConcat(byKey, p, q);
    AgentsSnoc(byKey, p, k);
  }

  lemma {:induction false} AgentsRearranged(byKey: map<Key, Acc>, order: seq<Key>, order': seq<Key>)
    requires multiset(order) == multiset(order')
    requires forall k :: k in order ==> k in byKey
    requires forall k :: k in order' ==> k in byKey
    ensures multiset(Agents(byKey, order)) == multiset(Agents(byKey, order'))
    decreases |order|
  {
    assert |order| == |multiset(order)| == |multiset(order')| == |order'|;
    if order != [] {
      var init, k := order[..|order| - 1], order[|order| - 1];
      assert order == init + [k];
      var j := FindInRearranged(order', init, k);
      var p, q := order'[..j], order'[j + 1..];
      assert order' == (p + [k]) + q;
      AgentsRearranged(byKey, init, p + q);
      AgentsMoved(byKey, p, k, q);
      AgentsSnoc(byKey, init, k);
    } else {
      assert order' == [];
    }
  }

  lemma {:induction false} AgentMember(byKey: map<Key, Acc>, order: seq<Key>, a: Agent)
    requires forall k :: k in order ==> k in byKey
    ensures a in Agents(byKey, order) <==> exists k :: k in order && a == AgentFor(byKey[k])
  {
    if order != [] {
      assert order == order[..|order| - 1] + [order[|order| - 1]];
      AgentMember(byKey, order[..|order| - 1], a);
    }
  }

  ghost predicate Determined(byKey: map<Key, Acc>) {
    forall out, out' :: IsSnapshot(out, byKey) && IsSnapshot(out', byKey) ==> out == out'
  }

  /** Two installations that the snapshot shows under the same name, user and host have the same record. */
  ghost predicate NoClash(byKey: map<Key, Acc>) {
    forall k, k' :: k in byKey && k' in byKey && SameLabel(byKey[k], byKey[k']) ==>
      AgentFor(byKey[k]) == AgentFor(byKey[k'])
  }

  predicate SameLabel(a: Acc, b: Acc) {
    a.name == b.name && a.user == b.user && a.host == b.host
  }

  lemma SnapshotMembers(out: seq<Agent>, byKey: map<Key, Acc>, a: Agent)
    requires IsSnapshot(out, byKey) && a in out
    ensures exists k :: k in byKey && a == AgentFor(byKey[k])
  {
    var order :| Lists(order, byKey.Keys) && multiset(out) == multiset(Agents(byKey, order));
    assert a in multiset(out);
    AgentMember(byKey, order, a);
  }

  lemma NoClashDetermines(byKey: map<Key, Acc>, out: seq<Agent>, out': seq<Agent>)
    requires NoClash(byKey) && IsSnapshot(out, byKey) && IsSnapshot(out', byKey)
    ensures out == out'
  {
    var order :| Lists(order, byKey.Keys) && multiset(out) == multiset(Agents(byKey, order));
    var order' :| Lists(order', byKey.Keys) && multiset(out') == multiset(Agents(byKey, order'));
    ListsRearranged(order, order', byKey.Keys);
    AgentsRearranged(byKey, order, order');
    ByLabelOrders();
    forall x, y | x in out && y in out && Tied(x, y, ByLabel) ensures x == y {
      SnapshotMembers(out, byKey, x);
      SnapshotMembers(out, byKey, y);
      var k :| k in byKey && x == AgentFor(byKey[k]);
      var k' :| k' in byKey && y == AgentFor(byKey[k']);
      assert SameLabel(byKey[k], byKey[k']);
    }
    SortedUnique(out, out', ByLabel);
  }

  /** Exchanging two tied elements keeps a sequence sorted. */
  lemma SwapTied(s: seq<Agent>, i: nat, j: nat)
    requires i < |s| && j < |s| && Sorted(s, ByLabel) && Tied(s[i], s[j], ByLabel)
    ensures Sorted(s[i := s[j]][j := s[i]], ByLabel)
  {
    ByLabelOrders();
    var t := s[i := s[j]][j := s[i]];
    forall a, b | 0 <= a < b < |t| ensures !ByLabel(t[b], t[a]) {
      assert Tied(t[a], s[a], ByLabel) && Tied(t[b], s[b], ByLabel);
      assert !ByLabel(s[b], s[a]);
    }
  }

  lemma SwapKeeps<T>(s: seq<T>, i: nat, j: nat)
    requires i < j < |s|
    ensures multiset(s[i := s[j]][j := s[i]]) == multiset(s)
  {
    var p, m, q := s[..i], s[i + 1..j], s[j + 1..];
    assert s == p + [s[i]] + m + [s[j]] + q;
    assert s[i := s[j]][j := s[i]] == p + [s[j]] + m + [s[i]] + q;
    PiecesSwap(p, s[i], m, s[j], q);
  }

  lemma PiecesSwap<T>(p: seq<T>, x: T, m: seq<T>, y: T, q: seq<T>)
    ensures multiset(p + [x] + m + [y] + q) == multiset(p + [y] + m + [x] + q)
  {
    PiecesOf(p, x, m, y, q);
    PiecesOf(p, y, m, x, q);
  }

  lemma PiecesOf<T>(p: seq<T>, x: T, m: seq<T>, y: T, q: seq<T>)
    ensures multiset(p + [x] + m + [y] + q) == multiset(p) + multiset(m) + multiset(q) + multiset{x, y}
  {
    assert multiset(p + [x]) == multiset(p) + multiset{x};
    assert multiset(p + [x] + m) == multiset(p + [x]) + multiset(m);
    assert multiset(p + [x] + m + [y]) == multiset(p + [x] + m) + multiset{y};
  }

  lemma SomeSnapshot(byKey: map<Key, Acc>) returns (out: seq<Agent>)
    ensures IsSnapshot(out, byKey)
    ensures forall k :: k in byKey ==> AgentFor(byKey[k]) in out
  {
    var order := SetLists(byKey.Keys);
    var agents := Agents(byKey, order);
    ByLabelOrders();
    SortSorts(agents, ByLabel);
    out := Sort(agents, ByLabel);
    forall k | k in byKey ensures AgentFor(byKey[k]) in out {
      AgentMember(byKey, order, AgentFor(byKey[k]));
      assert AgentFor(byKey[k]) in multiset(agents);
      assert AgentFor(byKey[k]) in multiset(out);
    }
  }

  lemma ClashUndermines(byKey: map<Key, Acc>, k: Key, k': Key)
    requires k in byKey && k' in byKey && SameLabel(byKey[k], byKey[k'])
    requires AgentFor(byKey[k]) != AgentFor(byKey[k'])
    ensures !Determined(byKey)
  {
    var x, y := AgentFor(byKey[k]), AgentFor(byKey[k']);
    var out := SomeSnapshot(byKey);
    var i: nat :| i < |out| && out[i] == x;
    var j: nat :| j < |out| && out[j] == y;
    assert Tied(x, y, ByLabel) by { ByLabelOrders(); }
    SwapRefutes(out, byKey, i, j);
  }

  lemma SwapRefutes(out: seq<Agent>, byKey: map<Key, Acc>, i: nat, j: nat)
    requires i < |out| && j < |out| && IsSnapshot(out, byKey)
    requires Tied(out[i], out[j], ByLabel) && out[i] != out[j]
    ensures !Determined(byKey)
  {
    var out' := out[i := out[j]][j := out[i]];
    SwapStaysSnapshot(out, byKey, i, j);
    assert out'[i] != out[i];
    TwoSnapshots(out, out', byKey);
  }

  lemma TwoSnapshots(out: seq<Agent>, out': seq<Agent>, byKey: map<Key, Acc>)
    requires IsSnapshot(out, byKey) && IsSnapshot(out', byKey) && out != out'
    ensures !Determined(byKey)
  {
  }

  lemma SwapStaysSnapshot(out: seq<Agent>, byKey: map<Key, Acc>, i: nat, j: nat)
    requires i < |out| && j < |out| && i != j && IsSnapshot(out, byKey) && Tied(out[i], out[j], ByLabel)
    ensures IsSnapshot(out[i := out[j]][j := out[i]], byKey)
  {
    SwapTied(out, i, j);
    if i < j {
      SwapKeeps(out, i, j);
    } else {
      SwapKeeps(out, j, i);
      assert out[i := out[j]][j := out[i]] == out[j := out[i]][i := out[j]];
    }
  }

  /**
   The same export yields the same snapshot, for every map-iteration order and every sorting of ties, exactly
   when no two installations with the same displayed name, user and host have different records.
   */
  lemma DeterminedIff(byKey: map<Key, Acc>)
    ensures Determined(byKey) <==> NoClash(byKey)
  {
    if NoClash(byKey) {
      forall out, out' | IsSnapshot(out, byKey) && IsSnapshot(out', byKey) ensures out == out' {
        NoClashDetermines(byKey, out, out');
      }
    } else {
      var k, k' :| k in byKey && k' in byKey && SameLabel(byKey[k], byKey[k'])
                   && AgentFor(byKey[k]) != AgentFor(byKey[k']);
      ClashUndermines(byKey, k, k');
    }
  }

  /** The same, said of the events: ToSnapshot is a function of its input exactly when no two records clash. */
  lemma {:induction false} SnapshotIsFunctionIff(es: seq<Event>, byKey: map<Key, Acc>)
    requires Aggregates(byKey, es)
    ensures (forall out, out' :: IsSnapshotOf(out, es) && IsSnapshotOf(out', es) ==> out == out') <==> NoClash(byKey)
  {
    forall out ensures IsSnapshotOf(out, es) <==> IsSnapshot(out, byKey) {
      OneAggregation(out, es, byKey);
    }
    DeterminedIff(byKey);
  }

  lemma {:induction false} OneAggregation(out: seq<Agent>, es: seq<Event>, byKey: map<Key, Acc>)
    requires Aggregates(byKey, es)
    ensures IsSnapshotOf(out, es) <==> IsSnapshot(out, byKey)
  {
    if IsSnapshotOf(out, es) {
      var byKey' :| Aggregates(byKey', es) && IsSnapshot(out, byKey');
      AggregateIsUnique(byKey, byKey', es);
    }
  }

  /** In particular when agentName maps no two sources of the same user and host to one name. */
  lemma {:induction false} DistinctNamesDetermine(es: seq<Event>, byKey: map<Key, Acc>)
    requires Aggregates(byKey, es)
    requires forall k, k' ::
      (k in Keys(es) && k' in Keys(es) && k.user == k'.user && k.host == k'.host
       && AgentName(k.source) == AgentName(k'.source)) ==> k == k'
    ensures Determined(byKey)
  {
    forall k, k' | k in byKey && k' in byKey && SameLabel(byKey[k], byKey[k'])
      ensures k == k'
    {
      RecordAt(byKey, es, k);
      RecordAt(byKey, es, k');
    }
    DeterminedIff(byKey);
  }

  /** "claude" and "CLAUDE" are two installations shown under one name, and then the order is left open. */
  lemma {:induction false} MergedSourcesAreNotDetermined(e: Event, e': Event, byKey: map<Key, Acc>)
    requires e.source == "claude" && e'.source == "CLAUDE" && e.username == e'.username == "ada"
    requires e.hostname == e'.hostname && 0 <= e.timestamp < e'.timestamp
    requires Aggregates(byKey, [e, e'])
    ensures !Determined(byKey)
  {
    var k, k' := KeyOf(e), KeyOf(e');
    TwoEvents(e, e');
    OneName();
    RecordAt(byKey, [e, e'], k);
    RecordAt(byKey, [e, e'], k');
    assert IsAgent(AgentFor(byKey[k]), byKey[k]) && IsAgent(AgentFor(byKey[k']), byKey[k']);
    OneEvent(e);
    OneEvent(e');
    ClashUndermines(byKey, k, k');
  }

  lemma OneEvent(e: Event)
    requires e.timestamp >= 0
    ensures LastSeen([e]) == e.timestamp
  {
    assert [e][..0] == [];
  }

  lemma TwoEvents(e: Event, e': Event)
    requires KeyOf(e) != KeyOf(e')
    ensures Keys([e, e']) == {KeyOf(e), KeyOf(e')}
    ensures Own([e, e'], KeyOf(e)) == [e] && Own([e, e'], KeyOf(e')) == [e']
  {
    assert [e, e'] == ([] + [e]) + [e'];
    OwnSnoc([], e, KeyOf(e));
    OwnSnoc([], e, KeyOf(e'));
    OwnSnoc([] + [e], e', KeyOf(e));
    OwnSnoc([] + [e], e', KeyOf(e'));
    assert [] + [e] == [e] && [] + [e'] == [e'];
  }

  lemma OneName()
    ensures AgentName("claude") == AgentName("CLAUDE")
  {
    assert Trim("claude", GO_SPACE) == "claude" && Trim("CLAUDE", GO_SPACE) == "CLAUDE";
    var upper, lower := "CLAUDE", "claude";
    assert Lower(upper) == lower && Lower(lower) == lower;
  }

  // ----- the snapshot in terms of the events -----

  /**
   An agent of the snapshot shows the installation that an event belongs to: the events with the same source, the
   same host, and the same user name, or user id where the user name is empty.
   */
  ghost predicate Shows(a: Agent, e: Event, es: seq<Event>) {
    var own := Own(es, Key(e.source, if e.username == "" then e.userId else e.username, e.hostname));
    && a.name == AgentName(e.source) && a.host == e.hostname
    && a.user == (if e.username == "" then e.userId else e.username)
    && a.sessions == |Sessions(own)| && a.lastSeen == LastSeen(own)
    && (forall server :: server in a.servers <==> server in Servers(Usages(own)))
    && (forall x :: x in a.toolUse <==> x.count > 0 && x.count == Uses(Usages(own), x.tool))
  }

  lemma {:induction false} AgentShows(es: seq<Event>, byKey: map<Key, Acc>, e: Event)
    requires Aggregates(byKey, es) && e in es
    ensures KeyOf(e) in byKey && Shows(AgentFor(byKey[KeyOf(e)]), e, es)
  {
    KeyMember(es, KeyOf(e));
    RecordAt(byKey, es, KeyOf(e));
    var acc := byKey[KeyOf(e)];
    RecordShows(AgentFor(acc), acc, e, Own(es, KeyOf(e)));
  }

  lemma {:induction false} RecordShows(a: Agent, acc: Acc, e: Event, own: seq<Event>)
    requires IsAgent(a, acc) && Describes(acc, KeyOf(e), own)
    ensures a.name == AgentName(e.source) && a.host == e.hostname && a.user == KeyOf(e).user
    ensures a.sessions == |Sessions(own)| && a.lastSeen == LastSeen(own)
    ensures forall server :: server in a.servers <==> server in Servers(Usages(own))
    ensures forall x :: x in a.toolUse <==> x.count > 0 && x.count == Uses(Usages(own), x.tool)
  {
    forall x ensures x in a.toolUse <==> x.count > 0 && x.count == Uses(Usages(own), x.tool) {
      assert x in a.toolUse <==> x in ToolItems(acc.tools);
      assert x.tool in acc.tools <==> Uses(Usages(own), x.tool) > 0;
    }
  }

  /** Every event has its agent in the snapshot, and every agent is that of some event. */
  lemma {:induction false} AgentsAreInstallations(out: seq<Agent>, es: seq<Event>)
    requires IsSnapshotOf(out, es)
    ensures forall e :: e in es ==> exists a :: a in out && Shows(a, e, es)
    ensures forall a :: a in out ==> exists e :: e in es && Shows(a, e, es)
  {
    var byKey :| Aggregates(byKey, es) && IsSnapshot(out, byKey);
    forall e | e in es ensures exists a :: a in out && Shows(a, e, es) {
      AgentShows(es, byKey, e);
      AllShown(out, byKey, KeyOf(e));
    }
    forall a | a in out ensures exists e :: e in es && Shows(a, e, es) {
      SnapshotMembers(out, byKey, a);
      var k :| k in byKey && a == AgentFor(byKey[k]);
      KeyMember(es, k);
      var e :| e in es && KeyOf(e) == k;
      AgentShows(es, byKey, e);
    }
  }

  lemma {:induction false} AllShown(out: seq<Agent>, byKey: map<Key, Acc>, k: Key)
    requires IsSnapshot(out, byKey) && k in byKey
    ensures AgentFor(byKey[k]) in out
  {
    var order :| Lists(order, byKey.Keys) && multiset(out) == multiset(Agents(byKey, order));
    AgentMember(byKey, order, AgentFor(byKey[k]));
    assert AgentFor(byKey[k]) in multiset(Agents(byKey, order));
  }

  /** How the lists read: servers by name, tools from the most used down, agents by name, user and host. */
  lemma {:induction false} ListsRead(out: seq<Agent>, byKey: map<Key, Acc>, a: Agent, i: nat, j: nat)
    requires IsSnapshot(out, byKey) && a in out
    ensures i < j < |a.servers| ==> Before(a.servers[i], a.servers[j])
    ensures i < j < |a.toolUse| ==>
              var (x, y) := (a.toolUse[i], a.toolUse[j]);
              x.count > y.count || (x.count == y.count && Before(x.tool, y.tool))
    ensures i < j < |out| ==>
              var (x, y) := (out[i], out[j]);
              || Before(x.name, y.name)
              || (x.name == y.name && Before(x.user, y.user))
              || (x.name == y.name && x.user == y.user && (Before(x.host, y.host) || x.host == y.host))
  {
    SnapshotMembers(out, byKey, a);
    var k :| k in byKey && a == AgentFor(byKey[k]);
    if i < j < |a.servers| {
      assert !ByName(a.servers[j], a.servers[i]);
      BeforeTotal(a.servers[i], a.servers[j]);
    }
    if i < j < |a.toolUse| {
      assert !ByUse(a.toolUse[j], a.toolUse[i]) && a.toolUse[i] != a.toolUse[j];
      BeforeTotal(a.toolUse[i].tool, a.toolUse[j].tool);
    }
    if i < j < |out| {
      assert !ByLabel(out[j], out[i]);
      BeforeTotal(out[i].name, out[j].name);
      BeforeTotal(out[i].user, out[j].user);
      BeforeTotal(out[i].host, out[j].host);
    }
  }

  // ----- what the tool counts add up to -----

  function Total(uses: seq<ToolUse>): nat {
    if uses == [] then 0 else Total(uses[..|uses| - 1]) + uses[|uses| - 1].count
  }

  function SnapshotTotal(out: seq<Agent>): nat {
    if out == [] then 0 else SnapshotTotal(out[..|out| - 1]) + Total(out[|out| - 1].toolUse)
  }

  /** The usages that name a tool. */
  function Named(us: seq<Usage>): nat {
    if us == [] then 0 else Named(us[..|us| - 1]) + if us[|us| - 1].tool != "" then 1 else 0
  }

  function SumUses(us: seq<Usage>, uses: seq<ToolUse>): nat {
    if uses == [] then 0 else SumUses(us, uses[..|uses| - 1]) + Uses(us, uses[|uses| - 1].tool)
  }

  lemma {:induction false} TotalIsSum(uses: seq<ToolUse>, us: seq<Usage>)
    requires forall i :: 0 <= i < |uses| ==> uses[i].count == Uses(us, uses[i].tool)
    ensures Total(uses) == SumUses(us, uses)
  {
    if uses != [] {
      TotalIsSum(uses[..|uses| - 1], us);
    }
  }

  lemma {:induction false} SumUsesSnoc(us: seq<Usage>, u: Usage, uses: seq<ToolUse>)
    requires forall i, j :: 0 <= i < j < |uses| ==> uses[i].tool != uses[j].tool
    ensures SumUses(us + [u], uses) ==
            SumUses(us, uses) + if u.tool != "" && exists i :: 0 <= i < |uses| && uses[i].tool == u.tool then 1 else 0
  {
    if uses != [] {
      var init, last := uses[..|uses| - 1], uses[|uses| - 1];
      SumUsesSnoc(us, u, init);
      assert (us + [u])[..|us|] == us;
      assert (exists i :: 0 <= i < |uses| && uses[i].tool == u.tool) <==>
             (last.tool == u.tool || exists i :: 0 <= i < |init| && init[i].tool == u.tool) by {
        assert forall i :: 0 <= i < |init| ==> uses[i] == init[i];
      }
    }
  }

  lemma {:induction false} SumCoversNamed(us: seq<Usage>, uses: seq<ToolUse>)
    requires forall i, j :: 0 <= i < j < |uses| ==> uses[i].tool != uses[j].tool
    requires forall u :: u in us && u.tool != "" ==> exists i :: 0 <= i < |uses| && uses[i].tool == u.tool
    ensures SumUses(us, uses) == Named(us)
  {
    if us == [] {
      NoUses(uses);
    } else {
      var init, u := us[..|us| - 1], us[|us| - 1];
      assert us == init + [u];
      SumCoversNamed(init, uses);
      SumUsesSnoc(init, u, uses);
    }
  }

  lemma {:induction false} NoUses(uses: seq<ToolUse>)
    ensures SumUses([], uses) == 0
  {
    if uses != [] {
      NoUses(uses[..|uses| - 1]);
    }
  }

  lemma {:induction false} UsedTools(us: seq<Usage>, u: Usage)
    requires u in us && u.tool != ""
    ensures Uses(us, u.tool) > 0
  {
    assert us == us[..|us| - 1] + [us[|us| - 1]];
    if u in us[..|us| - 1] {
      UsedTools(us[..|us| - 1], u);
    }
  }

  lemma AgentTotal(a: Agent, acc: Acc, us: seq<Usage>)
    requires IsAgent(a, acc) && Tallies(acc.tools, us)
    ensures Total(a.toolUse) == Named(us)
  {
    var uses := a.toolUse;
    forall i | 0 <= i < |uses| ensures uses[i].tool in acc.tools && uses[i].count == acc.tools[uses[i].tool] {
      assert uses[i] in uses;
    }
    forall u | u in us && u.tool != "" ensures exists i :: 0 <= i < |uses| && uses[i].tool == u.tool {
      UsedTools(us, u);
      assert ToolUse(u.tool, acc.tools[u.tool]) in uses;
    }
    TotalIsSum(uses, us);
    SumCoversNamed(us, uses);
  }

  function NamedOver(es: seq<Event>, order: seq<Key>): nat {
    if order == [] then 0 else NamedOver(es, order[..|order| - 1]) + Named(Usages(Own(es, order[|order| - 1])))
  }

  lemma {:induction false} NamedConcat(a: seq<Usage>, b: seq<Usage>)
    ensures Named(a + b) == Named(a) + Named(b)
  {
    if b == [] {
      assert a + b == a;
    } else {
      assert (a + b)[..|a + b| - 1] == a + b[..|b| - 1];
      NamedConcat(a, b[..|b| - 1]);
    }
  }

  lemma {:induction false} NamedOverSnoc(es: seq<Event>, e: Event, order: seq<Key>)
    requires Distinct(order)
    ensures NamedOver(es + [e], order) ==
            NamedOver(es, order) + if KeyOf(e) in order then Named(Flatten(e.chat)) else 0
  {
    if order != [] {
      var init, k := order[..|order| - 1], order[|order| - 1];
      assert order == init + [k] && k !in init;
      NamedOverSnoc(es, e, init);
      OwnSnoc(es, e, k);
      if KeyOf(e) == k {
        Snoc(Own(es, k), e);
        NamedConcat(Usages(Own(es, k)), Flatten(e.chat));
      }
    }
  }

  lemma {:induction false} NamedOverAll(es: seq<Event>, order: seq<Key>)
    requires Distinct(order) && forall k :: k in Keys(es) ==> k in order
    ensures NamedOver(es, order) == Named(Usages(es))
  {
    if es == [] {
      NothingNamed(order);
    } else {
      var init, e := es[..|es| - 1], es[|es| - 1];
      assert es == init + [e];
      NamedOverAll(init, order);
      NamedOverSnoc(init, e, order);
      NamedConcat(Usages(init), Flatten(e.chat));
    }
  }

  lemma {:induction false} NothingNamed(order: seq<Key>)
    ensures NamedOver([], order) == 0
  {
    if order != [] {
      NothingNamed(order[..|order| - 1]);
    }
  }

  lemma {:induction false} SnapshotTotalConcat(a: seq<Agent>, b: seq<Agent>)
    ensures SnapshotTotal(a + b) == SnapshotTotal(a) + SnapshotTotal(b)
  {
    if b == [] {
      assert a + b == a;
    } else {
      assert (a + b)[..|a + b| - 1] == a + b[..|b| - 1];
      SnapshotTotalConcat(a, b[..|b| - 1]);
    }
  }

  lemma {:induction false} SnapshotTotalRearranged(a: seq<Agent>, b: seq<Agent>)
    requires multiset(a) == multiset(b)
    ensures SnapshotTotal(a) == SnapshotTotal(b)
    decreases |a|
  {
    assert |a| == |multiset(a)| == |multiset(b)| == |b|;
    if a != [] {
      var init, x := a[..|a| - 1], a[|a| - 1];
      assert a == init + [x];
      var j := FindInRearranged(b, init, x);
      var p, q := b[..j], b[j + 1..];
      assert b == (p + [x]) + q;
      SnapshotTotalRearranged(init, p + q);
      SnapshotTotalConcat(p + [x], q);
      SnapshotTotalConcat(p, [x]);
      SnapshotTotalConcat(p, q);
      SnapshotTotalConcat(init, [x]);
    }
  }

  lemma {:induction false} AgentsTotal(es: seq<Event>, byKey: map<Key, Acc>, order: seq<Key>)
    requires Aggregates(byKey, es) && forall k :: k in order ==> k in byKey
    ensures SnapshotTotal(Agents(byKey, order)) == NamedOver(es, order)
  {
    if order != [] {
      var init, k := order[..|order| - 1], order[|order| - 1];
      assert order == init + [k];
      AgentsTotal(es, byKey, init);
      OneAgentTotal(es, byKey, k);
      AgentsSnoc(byKey, init, k);
      SnapshotTotalSnoc(Agents(byKey, init), AgentFor(byKey[k]));
    }
  }

  lemma {:induction false} OneAgentTotal(es: seq<Event>, byKey: map<Key, Acc>, k: Key)
    requires Aggregates(byKey, es) && k in byKey
    ensures Total(AgentFor(byKey[k]).toolUse) == Named(Usages(Own(es, k)))
  {
    RecordAt(byKey, es, k);
    AgentTotal(AgentFor(byKey[k]), byKey[k], Usages(Own(es, k)));
  }

  lemma SnapshotTotalSnoc(agents: seq<Agent>, a: Agent)
    ensures SnapshotTotal(agents + [a]) == SnapshotTotal(agents) + Total(a.toolUse)
  {
    assert (agents + [a])[..|agents|] == agents;
  }

  /** Every usage that names a tool is counted in the snapshot, exactly once. */
  lemma {:induction false} ToolCountsAreConserved(es: seq<Event>, byKey: map<Key, Acc>, out: seq<Agent>)
    requires Aggregates(byKey, es) && IsSnapshot(out, byKey)
    ensures SnapshotTotal(out) == Named(Usages(es))
  {
    var order :| Lists(order, byKey.Keys) && multiset(out) == multiset(Agents(byKey, order));
    SnapshotTotalRearranged(out, Agents(byKey, order));
    AgentsTotal(es, byKey, order);
    NamedOverAll(es, order);
  }
}
