/** The whole gateway: any number of connections, each the machine of module `Machine`, and any number of
    concurrent calls of `Registry.CloseAll`, sharing one capped registry. A step of the gateway is one
    step of one of them; a run is any interleaving. */
module Gateway {
  import opened Prelude
  import opened Protocol
  import opened Results
  import opened Admission
  import opened Machine
  import opened Invariants
  import opened Growth

  /** A call of `CloseAll`: the sessions of its snapshot, those it has still to close, and the one whose
      `close` it is in. */
  datatype Sweep = Sweep(reason: EndReason, taken: set<nat>, pending: set<nat>, at: Option<nat>)

  /** `conns` is keyed by session id, which `newSessionID` makes unique. */
  datatype State = State(max: nat, depth: nat, now: nat, conns: map<nat, Conn>, sweeps: map<nat, Sweep>)

  /** The keys of `Registry.sessions`. */
  function Sessions(conns: map<nat, Conn>): set<nat> {
    set id | id in conns && conns[id].desk.entry
  }

  /** `isAtCapacityLocked`. */
  predicate AtCapacity(g: State) {
    g.max > 0 && |Sessions(g.conns)| >= g.max
  }

  datatype Event =
    | Connect(id: nat, hook: bool)
    | At(id: nat, act: Act)
    | SweepStart(k: nat, reason: EndReason)
    | SweepNext(k: nat, id: nat)
    | SweepReturn(k: nat)
    | Clock

  predicate Enabled(R: Rules, g: State, e: Event) {
    match e
    case Connect(id, _) => id !in g.conns
    case At(id, a) =>
      && id in g.conns && Can(R, g.conns[id], a)
      && (a.Enter? && a.who.Sweeper? ==>
            a.who.k in g.sweeps && g.sweeps[a.who.k].at == Some(id) && g.sweeps[a.who.k].reason == a.who.reason)
    case SweepStart(k, _) => k !in g.sweeps
    case SweepNext(k, id) => k in g.sweeps && g.sweeps[k].at.None? && id in g.sweeps[k].pending
    case SweepReturn(k) =>
      k in g.sweeps && g.sweeps[k].at.Some? && g.sweeps[k].at.value in g.conns
      && g.conns[g.sweeps[k].at.value].life.once.Done?
    case Clock => true
  }

  function Apply(R: Rules, g: State, e: Event): State
    requires Enabled(R, g, e)
  {
    match e
    case Connect(id, hook) => g.(conns := g.conns[id := NewConn(g.depth, hook)])
    case At(id, a) => g.(conns := g.conns[id := Step(R, g.conns[id], a, AtCapacity(g), g.now)])
    case SweepStart(k, reason) =>
      g.(sweeps := g.sweeps[k := Sweep(reason, Sessions(g.conns), Sessions(g.conns), None)])
    case SweepNext(k, id) =>
      g.(sweeps := g.sweeps[k := g.sweeps[k].(pending := g.sweeps[k].pending - {id}, at := Some(id))])
    case SweepReturn(k) => g.(sweeps := g.sweeps[k := g.sweeps[k].(at := None)])
    case Clock => g.(now := g.now + 1)
  }

  /** An empty registry, as `NewRegistry` makes it: its limit and its queue depth are positive. */
  predicate Initial(g: State) {
    g.max >= 1 && g.depth >= 1 && g.conns == map[] && g.sweeps == map[]
  }

  /** `es` leads from `g` to `end`. */
  ghost predicate Runs(R: Rules, g: State, es: seq<Event>, end: State)
    decreases |es|
  {
    if es == [] then end == g
    else Enabled(R, g, es[0]) && Runs(R, Apply(R, g, es[0]), es[1..], end)
  }

  ghost predicate Reachable(R: Rules, g: State) {
    exists start, es :: Initial(start) && Runs(R, start, es, g)
  }

  // ---- the invariant ----

  /** A call of `CloseAll` works on sessions that were in the map; those it has dealt with are over. */
  predicate SweepOk(s: Sweep, conns: map<nat, Conn>) {
    && s.pending <= s.taken <= conns.Keys
    && (s.at.Some? ==> s.at.value in s.taken)
    && (forall id :: id in s.taken ==> conns[id].desk.joined)
    && (forall id :: id in s.taken && id !in s.pending && s.at != Some(id) ==> conns[id].life.once.Done?)
  }

  ghost predicate GoodState(R: Rules, g: State) {
    && g.max >= 1 && g.depth >= 1
    && |Sessions(g.conns)| <= g.max
    && (forall id :: id in g.conns ==> Good(R, g.conns[id]) && g.conns[id].depth == g.depth)
    && (forall k :: k in g.sweeps ==> SweepOk(g.sweeps[k], g.conns))
  }

  lemma SessionsShrink(before: map<nat, Conn>, after: map<nat, Conn>, extra: set<nat>)
    requires forall id :: id in after && after[id].desk.entry && id !in extra ==> id in before && before[id].desk.entry
    ensures |Sessions(after)| <= |Sessions(before)| + |extra|
  {
    CardinalityOfSubset(Sessions(after), Sessions(before) + extra);
  }

  lemma {:induction false} CardinalityOfSubset<T>(a: set<T>, b: set<T>)
    requires a <= b
    ensures |a| <= |b|
  {
    if a != {} {
      var x :| x in a;
      CardinalityOfSubset(a - {x}, b - {x});
    }
  }

  lemma ActFound(R: Rules, g: State, id: nat, a: Act)
    requires GoodState(R, g) && Enabled(R, g, At(id, a))
    ensures Found(g.conns[id], a)
  {
    if a.Enter? && a.who.Sweeper? {
      assert SweepOk(g.sweeps[a.who.k], g.conns);
    }
  }

  lemma SweepsKept(s: Sweep, before: map<nat, Conn>, id: nat, c: Conn)
    requires SweepOk(s, before) && (id in before ==> Grows(before[id], c))
    ensures SweepOk(s, before[id := c])
  {
  }

  /** A connection may be replaced by one that grew out of it, and enter the map when there is room. */
  lemma RegistryKeeps(g: State, id: nat, d: Conn)
    requires |Sessions(g.conns)| <= g.max && forall k :: k in g.sweeps ==> SweepOk(g.sweeps[k], g.conns)
    requires id in g.conns ==> Grows(g.conns[id], d)
    requires d.desk.entry ==> (id in g.conns && g.conns[id].desk.entry) || |Sessions(g.conns)| < g.max
    ensures |Sessions(g.conns[id := d])| <= g.max
    ensures forall k :: k in g.sweeps ==> SweepOk(g.sweeps[k], g.conns[id := d])
  {
    var after := g.conns[id := d];
    if d.desk.entry && !(id in g.conns && g.conns[id].desk.entry) {
      SessionsShrink(g.conns, after, {id});
    } else {
      SessionsShrink(g.conns, after, {});
    }
    forall k | k in g.sweeps ensures SweepOk(g.sweeps[k], after) {
      SweepsKept(g.sweeps[k], g.conns, id, d);
    }
  }

  lemma ConnKeeps(R: Rules, g: State, id: nat, d: Conn)
    requires GoodState(R, g) && Good(R, d) && d.depth == g.depth
    requires id in g.conns ==> Grows(g.conns[id], d)
    requires d.desk.entry ==> (id in g.conns && g.conns[id].desk.entry) || |Sessions(g.conns)| < g.max
    ensures GoodState(R, g.(conns := g.conns[id := d]))
  {
    hide Good, Grows, SweepOk;
    RegistryKeeps(g, id, d);
  }

  lemma ActKeeps(R: Rules, g: State, id: nat, a: Act)
    requires GoodState(R, g) && Faithful(R) && Enabled(R, g, At(id, a))
    ensures GoodState(R, Apply(R, g, At(id, a)))
  {
    hide Machine.Step;
    var c, full := g.conns[id], AtCapacity(g);
    ActFound(R, g, id, a);
    StepKeeps(R, c, a, full, g.now);
    StepGrows(R, c, a, full, g.now);
    OnlyStartEnters(R, c, a, full, g.now);
    ConnKeeps(R, g, id, Step(R, c, a, full, g.now));
  }

  lemma ConnectKeeps(R: Rules, g: State, id: nat, hook: bool)
    requires GoodState(R, g) && Enabled(R, g, Connect(id, hook))
    ensures GoodState(R, Apply(R, g, Connect(id, hook)))
  {
    NewIsGood(R, g.depth, hook);
    ConnKeeps(R, g, id, NewConn(g.depth, hook));
  }

  lemma SessionsJoined(R: Rules, g: State, id: nat)
    requires GoodState(R, g) && id in Sessions(g.conns)
    ensures g.conns[id].desk.joined
  {
    assert Good(R, g.conns[id]);
  }

  lemma SweepKeeps(R: Rules, g: State, e: Event)
    requires Enabled(R, g, e) && !e.At? && !e.Connect?
    requires forall k :: k in g.sweeps ==> SweepOk(g.sweeps[k], g.conns)
    requires forall id :: id in Sessions(g.conns) ==> g.conns[id].desk.joined
    ensures forall k :: k in Apply(R, g, e).sweeps ==> SweepOk(Apply(R, g, e).sweeps[k], g.conns)
  {
  }

  lemma EventKeeps(R: Rules, g: State, e: Event)
    requires GoodState(R, g) && Faithful(R) && Enabled(R, g, e)
    ensures GoodState(R, Apply(R, g, e))
  {
    match e {
      case At(id, a) => ActKeeps(R, g, id, a);
      case Connect(id, hook) => ConnectKeeps(R, g, id, hook);
      case _ =>
        forall id | id in Sessions(g.conns) ensures g.conns[id].desk.joined { SessionsJoined(R, g, id); }
        SweepKeeps(R, g, e);
    }
  }

  lemma {:induction false} RunKeeps(R: Rules, g: State, es: seq<Event>, end: State)
    requires GoodState(R, g) && Faithful(R) && Runs(R, g, es, end)
    ensures GoodState(R, end)
    decreases |es|
  {
    if es != [] {
      EventKeeps(R, g, es[0]);
      RunKeeps(R, Apply(R, g, es[0]), es[1..], end);
    }
  }

  /** The invariant holds in every reachable state of every interleaving. */
  lemma ReachableIsGood(R: Rules, g: State)
    requires Faithful(R) && Reachable(R, g)
    ensures GoodState(R, g)
  {
    var start, es :| Initial(start) && Runs(R, start, es, g);
    assert Sessions(start.conns) == {};
    RunKeeps(R, start, es, g);
  }

  lemma GrowsReflexive(c: Conn)
    ensures Grows(c, c)
  {
  }

  lemma EventGrows(R: Rules, g: State, e: Event, id: nat)
    requires GoodState(R, g) && Enabled(R, g, e) && id in g.conns
    ensures id in Apply(R, g, e).conns && Grows(g.conns[id], Apply(R, g, e).conns[id])
  {
    hide Machine.Step, Can, Downstream, Upstream, SweepOk, LifeGrows, HistoryGrows;
    GrowsReflexive(g.conns[id]);
    if e.At? && e.id == id {
      StepGrows(R, g.conns[id], e.act, AtCapacity(g), g.now);
    }
  }

  /** Along any run, a connection only grows. */
  lemma {:induction false} RunGrows(R: Rules, g: State, es: seq<Event>, end: State, id: nat)
    requires GoodState(R, g) && Faithful(R) && Runs(R, g, es, end) && id in g.conns
    ensures id in end.conns && Grows(g.conns[id], end.conns[id])
    decreases |es|
  {
    if es == [] {
      GrowsReflexive(g.conns[id]);
    } else {
      var next := Apply(R, g, es[0]);
      EventKeeps(R, g, es[0]);
      EventGrows(R, g, es[0], id);
      RunGrows(R, next, es[1..], end, id);
      GrowsIsTransitive(g.conns[id], next.conns[id], end.conns[id]);
    }
  }
}
