/** Aggregating agent telemetry per installation: the same tool, run by the same person, on the same host. */
module AgentEvents {
  import opened Sequences
  import opened Text

  datatype Usage = Usage(tool: string, toolType: string, server: string)

  /** Timestamps are counted from Go's zero time, which is where an unset LastSeen starts. */
  datatype Event = Event(
    timestamp: int, source: string, session: string, chat: seq<seq<Usage>>, userId: string, model: string,
    hostname: string, username: string)

  datatype Key = Key(source: string, user: string, host: string)

  function KeyOf(e: Event): Key {
    Key(e.source, if e.username == "" then e.userId else e.username, e.hostname)
  }

  const SOURCE_NAMES: map<string, string> :=
    map["claude" := "claude-code", "cursor" := "cursor", "cline" := "cline", "codex" := "codex", "warp" := "warp",
        "cowork" := "cowork"]

  function AgentName(source: string): string {
    var id := Lower(Trim(source, GO_SPACE));
    if id in SOURCE_NAMES then SOURCE_NAMES[id] else source
  }

  // ----- what an installation's events say, independently of any loop -----

  /** The events of one installation, in input order. */
  function Own(es: seq<Event>, k: Key): seq<Event> {
    if es == [] then []
    else
      var e := es[|es| - 1];
      Own(es[..|es| - 1], k) + if KeyOf(e) == k then [e] else []
  }

  function Keys(es: seq<Event>): set<Key> {
    if es == [] then {} else Keys(es[..|es| - 1]) + {KeyOf(es[|es| - 1])}
  }

  function Flatten(chat: seq<seq<Usage>>): seq<Usage> {
    if chat == [] then [] else Flatten(chat[..|chat| - 1]) + chat[|chat| - 1]
  }

  function Usages(es: seq<Event>): seq<Usage> {
    if es == [] then [] else Usages(es[..|es| - 1]) + Flatten(es[|es| - 1].chat)
  }

  function LastSeen(es: seq<Event>): int {
    if es == [] then 0
    else
      var before, t := LastSeen(es[..|es| - 1]), es[|es| - 1].timestamp;
      if t > before then t else before
  }

  function Sessions(es: seq<Event>): set<string> {
    if es == [] then {}
    else
      var id := es[|es| - 1].session;
      Sessions(es[..|es| - 1]) + if id == "" then {} else {id}
  }

  function Servers(us: seq<Usage>): set<string> {
    if us == [] then {}
    else
      var u := us[|us| - 1];
      Servers(us[..|us| - 1]) + if u.toolType == "mcp_tool" && u.server != "" then {u.server} else {}
  }

  function Uses(us: seq<Usage>, tool: string): nat {
    if us == [] then 0
    else Uses(us[..|us| - 1], tool) + if tool != "" && us[|us| - 1].tool == tool then 1 else 0
  }

  /** The event whose model is reported: the last one that names a model and is not older than LastSeen was. */
  function ModelIndex(es: seq<Event>): (i: nat)
    requires es != []
    ensures i < |es|
  {
    var init, e := es[..|es| - 1], es[|es| - 1];
    if init == [] || (e.model != "" && e.timestamp >= LastSeen(init)) then |init| else ModelIndex(init)
  }

  /** The person an event is attributed to: its user name, or its user id if there is none. */
  lemma {:induction false} InstallationOf(e: Event, f: Event)
    ensures KeyOf(e) == KeyOf(f) <==>
            && e.source == f.source && e.hostname == f.hostname
            && (if e.username == "" then e.userId else e.username)
               == (if f.username == "" then f.userId else f.username)
    ensures KeyOf(e.(username := "", userId := e.username)) == KeyOf(e) <==> e.username != "" || e.userId == ""
  {
  }

  lemma {:induction false} OwnMember(es: seq<Event>, k: Key, e: Event)
    ensures e in Own(es, k) <==> e in es && KeyOf(e) == k
  {
    if es != [] {
      assert es == es[..|es| - 1] + [es[|es| - 1]];
      OwnMember(es[..|es| - 1], k, e);
    }
  }

  lemma {:induction false} KeyMember(es: seq<Event>, k: Key)
    ensures k in Keys(es) <==> exists e :: e in es && KeyOf(e) == k
  {
    if es != [] {
      assert es == es[..|es| - 1] + [es[|es| - 1]];
      KeyMember(es[..|es| - 1], k);
    }
  }

  lemma {:induction false} SessionMember(es: seq<Event>, id: string)
    ensures id in Sessions(es) <==> id != "" && exists e :: e in es && e.session == id
  {
    if es != [] {
      assert es == es[..|es| - 1] + [es[|es| - 1]];
      SessionMember(es[..|es| - 1], id);
    }
  }

  /** A server counts when an MCP tool of it was used. */
  lemma {:induction false} ServerMember(us: seq<Usage>, server: string)
    ensures server in Servers(us) <==>
            server != "" && exists u :: u in us && u.toolType == "mcp_tool" && u.server == server
  {
    if us != [] {
      assert us == us[..|us| - 1] + [us[|us| - 1]];
      ServerMember(us[..|us| - 1], server);
    }
  }

  lemma {:induction false} UsageMember(es: seq<Event>, u: Usage)
    ensures u in Usages(es) <==> exists e :: e in es && u in Flatten(e.chat)
  {
    if es != [] {
      assert es == es[..|es| - 1] + [es[|es| - 1]];
      UsageMember(es[..|es| - 1], u);
    }
  }

  lemma {:induction false} FlattenMember(chat: seq<seq<Usage>>, u: Usage)
    ensures u in Flatten(chat) <==> exists m :: m in chat && u in m
  {
    if chat != [] {
      assert chat == chat[..|chat| - 1] + [chat[|chat| - 1]];
      FlattenMember(chat[..|chat| - 1], u);
    }
  }

  function Places(us: seq<Usage>, tool: string): set<int> {
    set i | 0 <= i < |us| && us[i].tool == tool
  }

  /** A named tool's count is the number of places at which it is used. */
  lemma {:induction false} UsesAreCounted(us: seq<Usage>, tool: string)
    ensures Uses(us, tool) == if tool == "" then 0 else |Places(us, tool)|
  {
    if us == [] {
      assert Places(us, tool) == {};
    } else {
      var init, n := us[..|us| - 1], |us| - 1;
      UsesAreCounted(init, tool);
      if us[n].tool == tool {
        assert Places(us, tool) == Places(init, tool) + {n};
      } else {
        assert Places(us, tool) == Places(init, tool);
      }
    }
  }

  /** The names the estate shows: six known sources in any case and spacing, and anything else under its own name. */
  lemma {:induction false} NamesShown(source: string)
    ensures var id := Lower(Trim(source, GO_SPACE));
            AgentName(source) ==
            if id == "claude" then "claude-code"
            else if id in {"cursor", "cline", "codex", "warp", "cowork"} then id
            else source
  {
  }

  // ----- the accumulator -----

  datatype Acc = Acc(
    name: string, user: string, host: string, model: string, lastSeen: int, sessions: set<string>,
    servers: set<string>, tools: map<string, nat>)

  ghost predicate Tallies(tools: map<string, nat>, us: seq<Usage>) {
    && (forall t :: t in tools <==> Uses(us, t) > 0)
    && (forall t :: t in tools ==> tools[t] == Uses(us, t))
  }

  ghost predicate Describes(a: Acc, k: Key, own: seq<Event>) {
    && own != []
    && a.name == AgentName(k.source) && a.user == k.user && a.host == k.host
    && a.model == own[ModelIndex(own)].model && a.lastSeen == LastSeen(own) && a.sessions == Sessions(own)
    && a.servers == Servers(Usages(own)) && Tallies(a.tools, Usages(own))
  }

  lemma {:induction false} ServersConcat(a: seq<Usage>, b: seq<Usage>)
    ensures Servers(a + b) == Servers(a) + Servers(b)
  {
    if b == [] {
      assert a + b == a;
    } else {
      assert (a + b)[..|a + b| - 1] == a + b[..|b| - 1];
      ServersConcat(a, b[..|b| - 1]);
    }
  }

  lemma {:induction false} UsesConcat(a: seq<Usage>, b: seq<Usage>, tool: string)
    ensures Uses(a + b, tool) == Uses(a, tool) + Uses(b, tool)
  {
    if b == [] {
      assert a + b == a;
    } else {
      assert (a + b)[..|a + b| - 1] == a + b[..|b| - 1];
      UsesConcat(a, b[..|b| - 1], tool);
    }
  }

  function Increment(tools: map<string, nat>, tool: string): map<string, nat> {
    if tool == "" then tools else tools[tool := (if tool in tools then tools[tool] else 0) + 1]
  }

  lemma TalliesSnoc(tools: map<string, nat>, us: seq<Usage>, u: Usage)
    requires Tallies(tools, us)
    ensures Tallies(Increment(tools, u.tool), us + [u])
    ensures Servers(us + [u]) == Servers(us) + if u.toolType == "mcp_tool" && u.server != "" then {u.server} else {}
  {
    assert (us + [u])[..|us|] == us;
    var tools' := Increment(tools, u.tool);
    forall t
      ensures t in tools' <==> Uses(us + [u], t) > 0
      ensures t in tools' ==> tools'[t] == Uses(us + [u], t)
    {
    }
  }

  method Record(tools: map<string, nat>, servers: set<string>, chat: seq<seq<Usage>>, ghost us: seq<Usage>)
    returns (tools': map<string, nat>, servers': set<string>)
    requires Tallies(tools, us) && servers == Servers(us)
    ensures Tallies(tools', us + Flatten(chat)) && servers' == Servers(us + Flatten(chat))
  {
    tools', servers' := tools, servers;
    assert us + [] == us;
    for i := 0 to |chat|
      invariant Tallies(tools', us + Flatten(chat[..i])) && servers' == Servers(us + Flatten(chat[..i]))
    {
      ghost var seen := us + Flatten(chat[..i]);
      assert chat[..i + 1][..i] == chat[..i];
      assert us + (Flatten(chat[..i]) + chat[i]) == seen + chat[i];
      tools', servers' := RecordMessage(tools', servers', chat[i], seen);
    }
    assert chat[..|chat|] == chat;
  }

  method RecordMessage(tools: map<string, nat>, servers: set<string>, message: seq<Usage>, ghost us: seq<Usage>)
    returns (tools': map<string, nat>, servers': set<string>)
    requires Tallies(tools, us) && servers == Servers(us)
    ensures Tallies(tools', us + message) && servers' == Servers(us + message)
  {
    tools', servers' := tools, servers;
    ghost var seen := us;
    for j := 0 to |message|
      invariant seen == us + message[..j]
      invariant Tallies(tools', seen) && servers' == Servers(seen)
    {
      var u := message[j];
      TalliesSnoc(tools', seen, u);
      seen := seen + [u];
      if u.toolType == "mcp_tool" && u.server != "" {
        servers' := servers' + {u.server};
      }
      if u.tool != "" {
        tools' := tools'[u.tool := (if u.tool in tools' then tools'[u.tool] else 0) + 1];
      }
    }
    assert seen == us + message;
  }

  lemma Snoc(own: seq<Event>, e: Event)
    ensures LastSeen(own + [e]) == if e.timestamp > LastSeen(own) then e.timestamp else LastSeen(own)
    ensures Sessions(own + [e]) == Sessions(own) + if e.session == "" then {} else {e.session}
    ensures Usages(own + [e]) == Usages(own) + Flatten(e.chat)
    ensures own != [] ==>
              ModelIndex(own + [e]) == if e.model != "" && e.timestamp >= LastSeen(own) then |own| else ModelIndex(own)
  {
    assert (own + [e])[..|own|] == own;
  }

  method Observe(a: Acc, e: Event, ghost own: seq<Event>) returns (a': Acc)
    requires Describes(a, KeyOf(e), own)
    ensures Describes(a', KeyOf(e), own + [e])
  {
    Snoc(own, e);
    var model, lastSeen, sessions := a.model, a.lastSeen, a.sessions;
    if e.model != "" && !(e.timestamp < lastSeen) {
      model := e.model;
    }
    if e.timestamp > lastSeen {
      lastSeen := e.timestamp;
    }
    if e.session != "" {
      sessions := sessions + {e.session};
    }
    var tools, servers := Record(a.tools, a.servers, e.chat, Usages(own));
    a' := Acc(a.name, a.user, a.host, model, lastSeen, sessions, servers, tools);
    assert (own + [e])[ModelIndex(own + [e])].model == model;
  }

  /** The first event of an installation creates its record and is then observed like any other. */
  method First(e: Event) returns (a: Acc)
    ensures Describes(a, KeyOf(e), [e])
  {
    var lastSeen := if e.timestamp > 0 then e.timestamp else 0;
    var sessions := if e.session != "" then {e.session} else {};
    Singleton(e);
    var tools, servers := Record(map[], {}, e.chat, []);
    var k := KeyOf(e);
    a := Acc(AgentName(e.source), k.user, k.host, e.model, lastSeen, sessions, servers, tools);
  }

  lemma Singleton(e: Event)
    ensures LastSeen([e]) == if e.timestamp > 0 then e.timestamp else 0
    ensures Sessions([e]) == if e.session != "" then {e.session} else {}
    ensures Usages([e]) == Flatten(e.chat) == [] + Flatten(e.chat)
    ensures ModelIndex([e]) == 0
  {
    Snoc([], e);
    assert [] + [e] == [e];
    assert [e][..0] == [];
  }

  ghost predicate Described(byKey: map<Key, Acc>, es: seq<Event>, k: Key) {
    k in byKey && Describes(byKey[k], k, Own(es, k))
  }

  ghost predicate AllDescribed(byKey: map<Key, Acc>, es: seq<Event>) {
    forall k {:trigger Described(byKey, es, k)} :: k in byKey ==> Described(byKey, es, k)
  }

  ghost predicate Aggregates(byKey: map<Key, Acc>, es: seq<Event>) {
    byKey.Keys == Keys(es) && AllDescribed(byKey, es)
  }

  lemma {:induction false} OwnIsEmpty(es: seq<Event>, k: Key)
    ensures Own(es, k) == [] <==> k !in Keys(es)
  {
    if es != [] {
      OwnIsEmpty(es[..|es| - 1], k);
    }
  }

  lemma OwnSnoc(es: seq<Event>, e: Event, k: Key)
    ensures Own(es + [e], k) == if KeyOf(e) == k then Own(es, k) + [e] else Own(es, k)
    ensures Keys(es + [e]) == Keys(es) + {KeyOf(e)}
  {
    assert (es + [e])[..|es|] == es;
  }

  /** An event leaves the records of the other installations alone. */
  lemma {:induction false} StillDescribes(byKey: map<Key, Acc>, es: seq<Event>, e: Event, k: Key)
    requires Described(byKey, es, k) && k != KeyOf(e)
    ensures Described(byKey, es + [e], k)
  {
    OwnSnoc(es, e, k);
  }

  lemma TalliesAgree(tools: map<string, nat>, tools': map<string, nat>, us: seq<Usage>)
    requires Tallies(tools, us) && Tallies(tools', us)
    ensures tools == tools'
  {
    forall t ensures t in tools <==> t in tools' {
      assert t in tools <==> Uses(us, t) > 0;
    }
    forall t | t in tools ensures tools[t] == tools'[t] {
      assert tools[t] == Uses(us, t);
    }
  }

  /** What the loop holds is a function of the events. */
  lemma {:induction false} AggregateIsUnique(m: map<Key, Acc>, m': map<Key, Acc>, es: seq<Event>)
    requires Aggregates(m, es) && Aggregates(m', es)
    ensures m == m'
  {
    assert m.Keys == m'.Keys;
    forall k | k in m.Keys ensures m[k] == m'[k] {
      RecordAt(m, es, k);
      RecordAt(m', es, k);
      OneRecord(m[k], m'[k], k, Own(es, k));
    }
  }

  lemma {:induction false} RecordAt(byKey: map<Key, Acc>, es: seq<Event>, k: Key)
    requires Aggregates(byKey, es) && k in byKey.Keys
    ensures Describes(byKey[k], k, Own(es, k))
  {
    assert Described(byKey, es, k);
  }

  lemma OneRecord(a: Acc, a': Acc, k: Key, own: seq<Event>)
    requires Describes(a, k, own) && Describes(a', k, own)
    ensures a == a'
  {
    TalliesAgree(a.tools, a'.tools, Usages(own));
  }

  lemma NothingAggregated(es: seq<Event>)
    ensures AggregatesFirst(map[], es, 0)
  {
    assert es[..0] == [];
  }

  method Aggregate(es: seq<Event>) returns (byKey: map<Key, Acc>)
    ensures Aggregates(byKey, es)
  {
    byKey := map[];
    NothingAggregated(es);
    for i := 0 to |es|
      invariant AggregatesFirst(byKey, es, i)
    {
      FirstSnoc(es, i);
      byKey := Put(byKey, es[i], es[..i]);
    }
    assert es[..|es|] == es;
  }

  ghost predicate AggregatesFirst(byKey: map<Key, Acc>, es: seq<Event>, n: nat) {
    n <= |es| && Aggregates(byKey, es[..n])
  }

  lemma FirstSnoc(es: seq<Event>, i: nat)
    requires i < |es|
    ensures es[..i + 1] == es[..i] + [es[i]]
  {
  }

  method Put(byKey: map<Key, Acc>, e: Event, ghost es: seq<Event>) returns (byKey': map<Key, Acc>)
    requires Aggregates(byKey, es)
    ensures Aggregates(byKey', es + [e])
  {
    var a := Take(byKey, e, es);
    byKey' := byKey[KeyOf(e) := a];
    OwnSnoc(es, e, KeyOf(e));
    assert byKey'.Keys == byKey.Keys + {KeyOf(e)};
    forall k | k in byKey' ensures Described(byKey', es + [e], k) {
      if k != KeyOf(e) {
        assert Described(byKey, es, k);
        StillDescribes(byKey, es, e, k);
      }
    }
  }

  /** The record of the event's installation, created if it is new, with the event observed. */
  method Take(byKey: map<Key, Acc>, e: Event, ghost es: seq<Event>) returns (a: Acc)
    requires Aggregates(byKey, es)
    ensures Describes(a, KeyOf(e), Own(es, KeyOf(e)) + [e])
  {
    var k := KeyOf(e);
    OwnIsEmpty(es, k);
    if k !in byKey {
      a := First(e);
      assert Own(es, k) + [e] == [e];
    } else {
      assert Described(byKey, es, k);
      a := Observe(byKey[k], e, Own(es, k));
    }
  }

  // ----- order and concatenation -----

  /** Everything order-free that a list of events says about an installation and a tool. */
  datatype Facts = Facts(keys: set<Key>, sessions: set<string>, servers: set<string>, uses: nat, lastSeen: int)

  function FactsOf(es: seq<Event>, k: Key, tool: string): Facts {
    var own := Own(es, k);
    Facts(Keys(es), Sessions(own), Servers(Usages(own)), Uses(Usages(own), tool), LastSeen(own))
  }

  function Join(a: Facts, b: Facts): Facts {
    Facts(a.keys + b.keys, a.sessions + b.sessions, a.servers + b.servers, a.uses + b.uses,
          if a.lastSeen < b.lastSeen then b.lastSeen else a.lastSeen)
  }

  /** Two exports put together: keys, sessions and servers unite, tool counts add, LastSeen is the later one. */
  lemma ExportsCombine(a: seq<Event>, b: seq<Event>, k: Key, tool: string)
    ensures FactsOf(a + b, k, tool) == Join(FactsOf(a, k, tool), FactsOf(b, k, tool))
  {
    OwnConcat(a, b, k);
    EventsCombine(Own(a, k), Own(b, k), tool);
  }

  lemma {:induction false} OwnConcat(a: seq<Event>, b: seq<Event>, k: Key)
    ensures Keys(a + b) == Keys(a) + Keys(b)
    ensures Own(a + b, k) == Own(a, k) + Own(b, k)
  {
    if b == [] {
      assert a + b == a;
    } else {
      assert (a + b)[..|a + b| - 1] == a + b[..|b| - 1];
      OwnConcat(a, b[..|b| - 1], k);
    }
  }

  lemma {:induction false} LastSeenIsNatural(es: seq<Event>)
    ensures LastSeen(es) >= 0
  {
    if es != [] {
      LastSeenIsNatural(es[..|es| - 1]);
    }
  }

  lemma {:induction false} SessionsConcat(x: seq<Event>, y: seq<Event>)
    ensures Sessions(x + y) == Sessions(x) + Sessions(y)
  {
    if y == [] {
      assert x + y == x;
    } else {
      assert (x + y)[..|x + y| - 1] == x + y[..|y| - 1];
      SessionsConcat(x, y[..|y| - 1]);
    }
  }

  lemma {:induction false} UsagesConcat(x: seq<Event>, y: seq<Event>)
    ensures Usages(x + y) == Usages(x) + Usages(y)
  {
    if y == [] {
      assert x + y == x;
    } else {
      var init, last := y[..|y| - 1], Flatten(y[|y| - 1].chat);
      assert (x + y)[..|x + y| - 1] == x + init;
      UsagesConcat(x, init);
      assert (Usages(x) + Usages(init)) + last == Usages(x) + (Usages(init) + last);
    }
  }

  lemma {:induction false} LastSeenConcat(x: seq<Event>, y: seq<Event>)
    ensures LastSeen(x + y) == if LastSeen(x) < LastSeen(y) then LastSeen(y) else LastSeen(x)
  {
    if y == [] {
      LastSeenIsNatural(x);
      assert x + y == x;
    } else {
      assert (x + y)[..|x + y| - 1] == x + y[..|y| - 1];
      LastSeenConcat(x, y[..|y| - 1]);
    }
  }

  lemma EventsCombine(x: seq<Event>, y: seq<Event>, tool: string)
    ensures Sessions(x + y) == Sessions(x) + Sessions(y)
    ensures Servers(Usages(x + y)) == Servers(Usages(x)) + Servers(Usages(y))
    ensures Uses(Usages(x + y), tool) == Uses(Usages(x), tool) + Uses(Usages(y), tool)
    ensures LastSeen(x + y) == if LastSeen(x) < LastSeen(y) then LastSeen(y) else LastSeen(x)
  {
    SessionsConcat(x, y);
    UsagesConcat(x, y);
    ServersConcat(Usages(x), Usages(y));
    UsesConcat(Usages(x), Usages(y), tool);
    LastSeenConcat(x, y);
  }

  /** Everything but the model is the same for every order of the events. */
  lemma {:induction false} OrderIrrelevant(es: seq<Event>, es': seq<Event>, k: Key, tool: string)
    requires multiset(es) == multiset(es')
    ensures FactsOf(es, k, tool) == FactsOf(es', k, tool)
    decreases |es|
  {
    assert |es| == |multiset(es)| == |multiset(es')| == |es'|;
    if es != [] {
      var init, e := es[..|es| - 1], es[|es| - 1];
      assert es == init + [e];
      var j := FindInRearranged(es', init, e);
      var p, q := es'[..j], es'[j + 1..];
      assert es' == (p + [e]) + q;
      OrderIrrelevant(init, p + q, k, tool);
      ExportsCombine(init, [e], k, tool);
      MovedToTheEnd(p, e, q, k, tool);
      ExportsCombine(p + q, [e], k, tool);
    }
  }

  lemma MovedToTheEnd(p: seq<Event>, e: Event, q: seq<Event>, k: Key, tool: string)
    ensures FactsOf((p + [e]) + q, k, tool) == FactsOf((p + q) + [e], k, tool)
  {
    ExportsCombine(p + [e], q, k, tool);
    ExportsCombine(p, [e], k, tool);
    ExportsCombine(p + q, [e], k, tool);
    ExportsCombine(p, q, k, tool);
    JoinSwaps(FactsOf(p, k, tool), FactsOf([e], k, tool), FactsOf(q, k, tool));
  }

  lemma JoinSwaps(a: Facts, b: Facts, c: Facts)
    ensures Join(Join(a, b), c) == Join(Join(a, c), b)
  {
    assert a.keys + b.keys + c.keys == a.keys + c.keys + b.keys;
    assert a.sessions + b.sessions + c.sessions == a.sessions + c.sessions + b.sessions;
    assert a.servers + b.servers + c.servers == a.servers + c.servers + b.servers;
  }

  // ----- the reported model -----

  /** No earlier event is newer. */
  ghost predicate IsRecord(es: seq<Event>, i: nat)
    requires i < |es|
  {
    0 <= es[i].timestamp && forall j :: 0 <= j < i ==> es[j].timestamp <= es[i].timestamp
  }

  lemma {:induction false} RecordIs(es: seq<Event>, i: nat)
    requires i < |es|
    ensures IsRecord(es, i) <==> es[i].timestamp >= LastSeen(es[..i])
  {
    LastSeenBounds(es[..i], es[i].timestamp);
    assert forall j :: 0 <= j < i ==> es[..i][j] == es[j];
  }

  lemma {:induction false} LastSeenBounds(es: seq<Event>, t: int)
    ensures LastSeen(es) <= t <==> 0 <= t && forall j :: 0 <= j < |es| ==> es[j].timestamp <= t
  {
    if es != [] {
      LastSeenBounds(es[..|es| - 1], t);
    }
  }

  /** The reported model comes from the last naming event that was newest when it came, or else the first event. */
  lemma {:induction false} ModelIsLastRecord(es: seq<Event>)
    requires es != []
    ensures var i := ModelIndex(es);
            && (i > 0 ==> es[i].model != "" && IsRecord(es, i))
            && (forall j :: i < j < |es| && es[j].model != "" ==> !IsRecord(es, j))
  {
    var init, e := es[..|es| - 1], es[|es| - 1];
    RecordIs(es, |es| - 1);
    if init != [] {
      ModelIsLastRecord(init);
      forall j: nat | j < |init| ensures IsRecord(es, j) <==> IsRecord(init, j) {
      }
    }
  }

  /** The event that names the current model: the newest event naming one, and the last such in input order. */
  ghost predicate IsNewestNaming(es: seq<Event>, i: nat) {
    && i < |es| && es[i].model != ""
    && (forall j :: 0 <= j < |es| && es[j].model != "" ==> es[j].timestamp <= es[i].timestamp)
    && (forall j :: i < j < |es| && es[j].model != "" ==> es[j].timestamp < es[i].timestamp)
  }

  /** An earlier event without a model is newer, so LastSeen had passed this event when it came. */
  ghost predicate Hidden(es: seq<Event>, i: nat)
    requires i < |es|
  {
    exists j :: 0 <= j < i && es[j].model == "" && es[j].timestamp > es[i].timestamp
  }

  /** The last event before i that named a model and was no older than anything before it. */
  ghost predicate LastRecordBefore(es: seq<Event>, i: nat, k: nat) {
    && k < i < |es| && es[k].model != "" && IsRecord(es, k)
    && forall j :: k < j < i && es[j].model != "" ==> !IsRecord(es, j)
  }

  /** That event names this model. */
  ghost predicate NamedBefore(es: seq<Event>, i: nat, model: string) {
    exists k: nat :: LastRecordBefore(es, i, k) && es[k].model == model
  }

  /** The model is taken from the newest event naming one exactly when that event is not hidden. */
  lemma {:induction false} NewestEventReportedIff(es: seq<Event>, i: nat)
    requires IsNewestNaming(es, i) && forall j :: 0 <= j < |es| ==> es[j].timestamp >= 0
    ensures ModelIndex(es) == i <==> !Hidden(es, i)
  {
    ModelIsLastRecord(es);
    if !Hidden(es, i) {
      assert IsRecord(es, i) by {
        forall j | 0 <= j < i ensures es[j].timestamp <= es[i].timestamp {
          assert es[j].model == "" ==> es[j].timestamp <= es[i].timestamp;
        }
      }
    }
  }

  /** If the newest naming event is hidden, the model is that of the last record before it, if there is one. */
  lemma {:induction false} HiddenReports(es: seq<Event>, i: nat)
    requires IsNewestNaming(es, i) && Hidden(es, i) && forall j :: 0 <= j < |es| ==> es[j].timestamp >= 0
    ensures ModelIndex(es) < i
    ensures es[ModelIndex(es)].model != "" ==> LastRecordBefore(es, i, ModelIndex(es))
    ensures es[ModelIndex(es)].model == "" ==> forall k: nat :: !LastRecordBefore(es, i, k)
  {
    var m := ModelIndex(es);
    ModelIsLastRecord(es);
    forall j | i <= j < |es| && es[j].model != "" ensures !IsRecord(es, j) {
      var h :| 0 <= h < i && es[h].model == "" && es[h].timestamp > es[i].timestamp;
      assert es[j].timestamp <= es[i].timestamp < es[h].timestamp;
    }
  }

  lemma OneLastRecordBefore(es: seq<Event>, i: nat, k: nat, k': nat)
    requires LastRecordBefore(es, i, k) && LastRecordBefore(es, i, k')
    ensures k == k'
  {
  }

  /**
   The report names the model of the newest event naming one exactly when that event is not hidden, or the last
   record before it happens to name the same model.
   */
  lemma {:induction false} NewestModelReportedIff(es: seq<Event>, i: nat)
    requires IsNewestNaming(es, i) && forall j :: 0 <= j < |es| ==> es[j].timestamp >= 0
    ensures es[ModelIndex(es)].model == es[i].model <==>
            !Hidden(es, i) || NamedBefore(es, i, es[i].model)
  {
    NewestEventReportedIff(es, i);
    if Hidden(es, i) {
      HiddenModelIs(es, i, es[i].model);
    }
  }

  lemma {:induction false} HiddenModelIs(es: seq<Event>, i: nat, model: string)
    requires IsNewestNaming(es, i) && Hidden(es, i) && forall j :: 0 <= j < |es| ==> es[j].timestamp >= 0
    requires model != ""
    ensures es[ModelIndex(es)].model == model <==> NamedBefore(es, i, model)
  {
    var m := ModelIndex(es);
    HiddenReports(es, i);
    if es[m].model == "" {
    } else if NamedBefore(es, i, model) {
      var k: nat :| LastRecordBefore(es, i, k) && es[k].model == model;
      OneLastRecordBefore(es, i, k, m);
    } else {
      assert LastRecordBefore(es, i, m);
    }
  }

  /** A model is hidden: named at time 3, but an event without a model at time 5 came first. */
  lemma NewestModelIsHidden(e: Event) returns (es: seq<Event>)
    ensures |es| == 3 && forall x :: x in es ==> KeyOf(x) == KeyOf(e) && x.timestamp >= 0
    ensures IsNewestNaming(es, 2) && es[2].model == "b" && es[ModelIndex(es)].model == "a"
  {
    var first := e.(model := "a", timestamp := 0);
    var blank := e.(model := "", timestamp := 5);
    var newest := e.(model := "b", timestamp := 3);
    es := [first, blank, newest];
    ModelIsLastRecord(es);
    assert IsRecord(es, 0);
    assert es[1].timestamp > es[2].timestamp;
  }

  /** If every event names a model, it is the model of the last event with the greatest timestamp. */
  lemma {:induction false} AllNamed(es: seq<Event>)
    requires es != [] && forall e :: e in es ==> e.model != "" && e.timestamp >= 0
    ensures var i := ModelIndex(es);
            && (forall j :: 0 <= j < |es| ==> es[j].timestamp <= es[i].timestamp)
            && (forall j :: i < j < |es| ==> es[j].timestamp < es[i].timestamp)
  {
    assert es[0] in es;
    var i := NewestNaming(es);
    NewestEventReportedIff(es, i);
  }

  lemma {:induction false} NewestNaming(es: seq<Event>) returns (i: nat)
    requires exists e :: e in es && e.model != ""
    ensures IsNewestNaming(es, i)
  {
    var init, e := es[..|es| - 1], es[|es| - 1];
    assert es == init + [e];
    if exists x :: x in init && x.model != "" {
      i := NewestNaming(init);
      if e.model != "" && e.timestamp >= es[i].timestamp {
        i := |es| - 1;
      }
    } else {
      i := |es| - 1;
      forall j | 0 <= j < |init| ensures es[j].model == "" {
        assert es[j] == init[j] && init[j] in init;
      }
    }
  }

  /** If the events come in time order, it is the last model named at all. */
  lemma {:induction false} InTimeOrder(es: seq<Event>)
    requires exists e :: e in es && e.model != ""
    requires forall i, j :: 0 <= i <= j < |es| ==> 0 <= es[i].timestamp <= es[j].timestamp
    ensures es[ModelIndex(es)].model != ""
    ensures forall j :: ModelIndex(es) < j < |es| ==> es[j].model == ""
  {
    var i := NewestNaming(es);
    NewestEventReportedIff(es, i);
  }
}
