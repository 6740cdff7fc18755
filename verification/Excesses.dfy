/**
  Inputs on which the preflight is too cautious: for every kind of idle reservation, a kernel run and a
  command that the kernel accepts and whose next state is within the profile, yet which the preflight
  refuses for capacity.
*/
module Excesses {
  import opened Types
  import opened Spec
  import opened Collections
  import opened Kernel
  import opened Transitions
  import opened Invariants
  import opened Capacity
  import opened Reservations
  import opened Encoding

  /** After the run the preflight refuses `c` for capacity, although nothing would overflow. */
  ghost predicate Excess(bg: Background, cmds: seq<CommandK>, c: CommandV) {
    var s := Run(bg, cmds);
    && |cmds| < MAX_ACCEPTED_SEQUENCE
    && StateOk(s) && CommandFits(c)
    && Step(s, bg, CommandOf(c)).Accepted? && StateOk(Next(s, bg, c))
    && Capacity.Preflight(s, |cmds| as U64, c) == Fail(CapacityExceeded)
  }

  lemma ExcessOf(bg: Background, cmds: seq<CommandK>, s: State, c: CommandV)
    requires bg.rootAgent == ROOT && |cmds| < MAX_ACCEPTED_SEQUENCE && s == Run(bg, cmds)
    requires StateOk(s) && CommandFits(c)
    requires Step(s, bg, CommandOf(c)).Accepted? && StateOk(Next(s, bg, c)) && !Spare(s, bg, c)
    ensures Excess(bg, cmds, c)
  {
    hide StateOk, CommandFits, PostFits, Spare, Step, Inv, Run, NeedsInvariant;
    RunInv(bg, cmds);
    PreflightExact(s, bg, |cmds| as U64, c);
  }

  // ---- Long runs of similar commands ----

  ghost function Times(n: nat, f: nat -> CommandK): (cmds: seq<CommandK>)
    ensures |cmds| == n
  {
    if n == 0 then [] else Times(n - 1, f) + [f(n - 1)]
  }

  /** A run goes on through the states that each further command leaves. */
  lemma {:induction false} RunTimes(bg: Background, base: seq<CommandK>, n: nat, f: nat -> CommandK, after: nat -> State)
    requires Run(bg, base) == after(0)
    requires forall i: nat | i < n :: Exec(after(i), bg, f(i)) == after(i + 1)
    ensures Run(bg, base + Times(n, f)) == after(n)
  {
    hide Step, Run, Exec;
    if n == 0 {
      assert base + [] == base;
    } else {
      RunTimes(bg, base, n - 1, f, after);
      assert base + Times(n, f) == base + Times(n - 1, f) + [f(n - 1)];
      RunNext(bg, base + Times(n - 1, f), f(n - 1));
      assert Exec(after(n - 1), bg, f(n - 1)) == after(n);
    }
  }

  /** The numbers below `n`, as texts of `width` bytes. */
  ghost function Names(n: nat, width: nat): set<Text> {
    if n == 0 then {} else Names(n - 1, width) + {BigEndian(n - 1, width)}
  }

  lemma {:induction false} Roomy(width: nat)
    requires width >= 2
    ensures Pow256(width) >= 65_536
  {
    if width == 2 {
      assert Pow256(1) == 256;
    } else {
      Roomy(width - 1);
    }
  }

  lemma {:induction false} NamesBelow(n: nat, width: nat, t: Text) returns (i: nat)
    requires t in Names(n, width)
    ensures i < n && t == BigEndian(i, width)
  {
    if t == BigEndian(n - 1, width) {
      i := n - 1;
    } else {
      i := NamesBelow(n - 1, width, t);
    }
  }

  /** Numbers that the width can tell apart have different names. */
  lemma NewName(n: nat, width: nat)
    requires width >= 2 && n < 65_536
    ensures BigEndian(n, width) !in Names(n, width)
  {
    Roomy(width);
    if BigEndian(n, width) in Names(n, width) {
      var i := NamesBelow(n, width, BigEndian(n, width));
      BigEndianInjective(n, i, width);
    }
  }

  lemma {:induction false} NamesSize(n: nat, width: nat)
    requires 2 <= width <= MAX_OPAQUE_UTF8_BYTES && n <= 65_536
    ensures |Names(n, width)| == n && SetCost(Names(n, width)) == n * width
  {
    hide SetCost;
    if n == 0 {
      EmptyCosts();
    } else {
      NamesSize(n - 1, width);
      NewName(n - 1, width);
      AddFresh(Names(n - 1, width), BigEndian(n - 1, width));
    }
  }

  lemma EmptyCosts()
    ensures SetCost({}) == 0
  {
  }

  // ---- Texts the state spends without end: crossings that fail harmlessly ----

  /** Root crosses to itself without evidence and falls back to failing: only the id is spent. */
  function Burn(id: CrossingId): CrossInput {
    CrossInput(ROOT, ROOT, id, [], [], FallbackFail, Attested, None, [], None, Public, Attested)
  }

  lemma BurnStep(s: State, bg: Background, q: CrossInput)
    requires q.src == q.rcv == ROOT && q.fallback == FallbackFail && !Spec.EndorsedOk(s, q)
    requires ROOT in s.active && !InFlight(s.pending, ROOT) && q.crossing !in s.consumedCrossings
    ensures CrossStep(s, bg, q).Accepted?
    ensures CrossStep(s, bg, q).next == s.(consumedCrossings := s.consumedCrossings + {q.crossing})
  {
    hide Spec.EndorsedOk, InFlight, WithinBounds;
  }

  ghost function Burnt(s: State, n: nat): State {
    s.(consumedCrossings := Names(n, 256))
  }

  ghost function BurnNth(i: nat): CommandK {
    Command.CrossOutput(Burn(BigEndian(i, 256)))
  }

  /** Almost the whole budget goes into crossing ids. */
  const BURNS: nat := 65_535

  lemma BurnMost(bg: Background, base: seq<CommandK>, s: State)
    requires Run(bg, base) == s && ROOT in s.active && !InFlight(s.pending, ROOT) && s.consumedCrossings == {}
    ensures Run(bg, base + Times(BURNS, BurnNth)) == Burnt(s, BURNS)
  {
    hide Run, CrossStep, InFlight;
    forall i: nat | i < BURNS ensures Exec(Burnt(s, i), bg, BurnNth(i)) == Burnt(s, i + 1) {
      NewName(i, 256);
      BurnStep(Burnt(s, i), bg, Burn(BigEndian(i, 256)));
    }
    assert Burnt(s, 0) == s;
    RunTimes(bg, base, BURNS, BurnNth, (i: nat) => Burnt(s, i));
  }

  lemma BurntCost(s: State)
    requires s.consumedCrossings == {}
    ensures TextCost(Burnt(s, BURNS)) == TextCost(s) + 16_776_960
    ensures |Burnt(s, BURNS).consumedCrossings| == BURNS
  {
    hide SetCost, MapCost;
    NamesSize(BURNS, 256);
    EmptyCosts();
  }

  /** The profile, for a state whose sizes are known. */
  lemma Fits(s: State)
    requires OuterShape(s) && TextCost(s) <= MAX_RETAINED_UTF8_BYTES
    ensures StateOk(s)
  {
    hide OuterShape, TextCost;
    NestedAlwaysFits(s);
  }

  /** A state with at most 256 bytes of text stays in the profile with the long ids besides. */
  lemma BurntFits(s: State)
    requires StateOk(s) && s.consumedCrossings == {} && TextCost(s) <= 256
    ensures StateOk(Burnt(s, BURNS)) && TextCost(Burnt(s, BURNS)) == TextCost(s) + 16_776_960
    ensures |Burnt(s, BURNS).consumedCrossings| == BURNS
  {
    hide TextCost, NestedShape, Names;
    BurntCost(s);
    Fits(Burnt(s, BURNS));
  }

  lemma NotBurnt(id: Text)
    requires |id| != 256
    ensures id !in Names(BURNS, 256)
  {
    if id in Names(BURNS, 256) {
      var i := NamesBelow(BURNS, 256, id);
    }
  }

  lemma InitialCost()
    ensures TextCost(Initial()) == 8
  {
    hide MapCost, SetCost;
    var s := Initial();
    EmptyCosts();
    assert s.active == {} + {ROOT};
    AddFresh({}, ROOT);
    assert s.caps == map[][ROOT := s.caps[ROOT]];
    PutFresh(map[], ROOT, s.caps[ROOT], KeyTexts);
    OneText(ROOT);
    assert KeyTexts(ROOT, s.caps[ROOT]) == [ROOT];
    NoEntries<AgentId, AgentId>(ParentTexts);
    NoEntries<AgentId, set<CapKind>>(KeyTexts);
    NoEntries<AgentId, set<ConfLevel>>(KeyTexts);
    NoEntries<AgentId, set<IntegLevel>>(KeyTexts);
    NoEntries<InvocationId, PendingK>(PendingTexts);
    NoEntries<InvocationId, ScopeK>(ScopeTexts);
    NoEntries<CrossingKey, CrossingGrant>(GrantTexts);
  }

  lemma NoEntries<K, V>(texts: (K, V) -> seq<Text>)
    ensures MapCost(map[], texts) == 0
  {
  }

  // ---- Crossings ----

  /** A failing crossing adds its id. */
  lemma BurnFits(s: State, bg: Background, q: CrossInput)
    requires q.src == q.rcv == ROOT && q.fallback == FallbackFail && !Spec.EndorsedOk(s, q)
    requires ROOT in s.active && !InFlight(s.pending, ROOT) && q.crossing !in s.consumedCrossings
    requires StateOk(s) && |s.consumedCrossings| < MAX_CONSUMED_CROSSINGS && TextRoom(s, [q.crossing])
    ensures CrossStep(s, bg, q).Accepted? && StateOk(CrossStep(s, bg, q).next)
  {
    hide InFlight, CrossStep, MapCost, SetCost, Costs, NestedShape;
    BurnStep(s, bg, q);
    AddFresh(s.consumedCrossings, q.crossing);
    OneText(q.crossing);
    Fits(CrossStep(s, bg, q).next);
  }

  lemma BurnIsSmall(id: CrossingId)
    requires |id| <= MAX_OPAQUE_UTF8_BYTES
    ensures CommandFits(Command.CrossOutput(Burn(id)))
  {
  }

  /** A crossing reserves its receiver twice, even when it releases nothing. */
  lemma CrossTextExcess(bg: Background) returns (cmds: seq<CommandK>, c: CommandV)
    requires bg.rootAgent == ROOT
    ensures c.CrossOutput? && Excess(bg, cmds, c)
  {
    hide StateOk, TextCost, Costs, CrossStep, BurnNth, Times, Names, Excess, CommandFits, Run, BigEndian;
    var s := Burnt(Initial(), BURNS);
    var q := Burn(Zeros(241));
    cmds, c := [] + Times(BURNS, BurnNth), Command.CrossOutput(q);
    RunNothing(bg);
    BurnMost(bg, [], Initial());
    InitialFits();
    InitialCost();
    BurntFits(Initial());
    OneText(q.crossing);
    CrossTexts(q);
    NotBurnt(q.crossing);
    BurnFits(s, bg, q);
    BurnIsSmall(q.crossing);
    ExcessOf(bg, cmds, s, c);
  }

  /** Root with the given labels. */
  ghost function Tainted(confs: set<ConfLevel>, integs: set<IntegLevel>): State {
    Initial().(taint := map[ROOT := confs], integ := map[ROOT := integs])
  }

  /** Root takes in one pair of labels. */
  function Taint(conf: ConfLevel, integ: IntegLevel): CommandK {
    Command.Ingest(ROOT, None, conf, integ)
  }

  lemma TaintStep(bg: Background, s: State, conf: ConfLevel, integ: IntegLevel)
    requires s == Initial() || s == Tainted(Of(s.taint, ROOT), Of(s.integ, ROOT))
    ensures Exec(s, bg, Taint(conf, integ)) == Tainted(Of(s.taint, ROOT) + {conf}, Of(s.integ, ROOT) + {integ})
  {
  }

  lemma RunTaint(bg: Background, c: ConfLevel, i: IntegLevel)
    ensures Run(bg, [Taint(c, i)]) == Tainted({c}, {i})
  {
    hide Run, Exec, Taint;
    RunOne(bg, Taint(c, i));
    TaintStep(bg, Initial(), c, i);
    assert {} + {c} == {c} && {} + {i} == {i};
  }

  lemma RunTaintNext(bg: Background, cmds: seq<CommandK>, confs: set<ConfLevel>, integs: set<IntegLevel>, c: ConfLevel, i: IntegLevel)
    requires Run(bg, cmds) == Tainted(confs, integs)
    ensures Run(bg, cmds + [Taint(c, i)]) == Tainted(confs + {c}, integs + {i})
  {
    hide Run, Exec, Taint;
    RunNext(bg, cmds, Taint(c, i));
    TaintStep(bg, Tainted(confs, integs), c, i);
  }

  lemma RunTaints(bg: Background, c: ConfLevel, i: IntegLevel, c1: ConfLevel, i1: IntegLevel,
                  c2: ConfLevel, i2: IntegLevel, c3: ConfLevel, i3: IntegLevel)
    ensures Run(bg, [Taint(c, i)] + [Taint(c1, i1)] + [Taint(c2, i2)] + [Taint(c3, i3)])
         == Tainted({c, c1, c2, c3}, {i, i1, i2, i3})
  {
    hide Run, Taint, Tainted;
    RunTaint(bg, c, i);
    RunTaintNext(bg, [Taint(c, i)], {c}, {i}, c1, i1);
    RunTaintNext(bg, [Taint(c, i)] + [Taint(c1, i1)], {c} + {c1}, {i} + {i1}, c2, i2);
    RunTaintNext(bg, [Taint(c, i)] + [Taint(c1, i1)] + [Taint(c2, i2)], {c} + {c1} + {c2}, {i} + {i1} + {i2}, c3, i3);
    assert {c} + {c1} + {c2} + {c3} == {c, c1, c2, c3};
    assert {i} + {i1} + {i2} + {i3} == {i, i1, i2, i3};
  }

  lemma TaintedFits(confs: set<ConfLevel>, integs: set<IntegLevel>)
    ensures StateOk(Tainted(confs, integs)) && TextCost(Tainted(confs, integs)) == 16
  {
    hide MapCost, SetCost, NestedShape;
    InitialCost();
    NoEntries<AgentId, set<ConfLevel>>(KeyTexts);
    NoEntries<AgentId, set<IntegLevel>>(KeyTexts);
    PutFresh(map[], ROOT, confs, KeyTexts);
    PutFresh(map[], ROOT, integs, KeyTexts);
    OneText(ROOT);
    assert map[][ROOT := confs] == map[ROOT := confs] && map[][ROOT := integs] == map[ROOT := integs];
    assert KeyTexts(ROOT, confs) == [ROOT] && KeyTexts(ROOT, integs) == [ROOT];
    Fits(Tainted(confs, integs));
  }

  /** A receiver that holds every level of one dimension receives no crossing at all. */
  lemma CrossFullExcess(bg: Background, cmds: seq<CommandK>, confs: set<ConfLevel>, integs: set<IntegLevel>, id: CrossingId)
    requires bg.rootAgent == ROOT && |cmds| < MAX_ACCEPTED_SEQUENCE && Run(bg, cmds) == Tainted(confs, integs)
    requires |confs| == MAX_CONF_LEVELS || |integs| == MAX_INTEG_LEVELS
    requires |id| <= MAX_OPAQUE_UTF8_BYTES
    ensures Excess(bg, cmds, Command.CrossOutput(Burn(id)))
  {
    hide StateOk, TextCost, Costs, CrossStep, Excess, CommandFits, Run;
    var s := Tainted(confs, integs);
    TaintedFits(confs, integs);
    OneText(id);
    BurnFits(s, bg, Burn(id));
    BurnIsSmall(id);
    ExcessOf(bg, cmds, s, Command.CrossOutput(Burn(id)));
  }

  lemma CrossConfExcess(bg: Background) returns (cmds: seq<CommandK>, c: CommandV)
    requires bg.rootAgent == ROOT
    ensures c.CrossOutput? && c.input.evidence == None && |Of(Run(bg, cmds).integ, c.input.rcv)| < MAX_INTEG_LEVELS
    ensures Excess(bg, cmds, c)
  {
    hide Run, Excess, Initial;
    var confs := {Public, Internal, Sensitive, Restricted};
    cmds := [Taint(Public, Trusted)] + [Taint(Internal, Trusted)] + [Taint(Sensitive, Trusted)] + [Taint(Restricted, Trusted)];
    c := Command.CrossOutput(Burn([]));
    RunTaints(bg, Public, Trusted, Internal, Trusted, Sensitive, Trusted, Restricted, Trusted);
    assert {Trusted, Trusted, Trusted, Trusted} == {Trusted};
    CrossFullExcess(bg, cmds, confs, {Trusted}, []);
  }

  lemma CrossIntegExcess(bg: Background) returns (cmds: seq<CommandK>, c: CommandV)
    requires bg.rootAgent == ROOT
    ensures c.CrossOutput? && c.input.evidence == None && |Of(Run(bg, cmds).taint, c.input.rcv)| < MAX_CONF_LEVELS
    ensures Excess(bg, cmds, c)
  {
    hide Run, Excess, Initial;
    var integs := {Untrusted, Standard, Trusted, Attested};
    cmds := [Taint(Public, Untrusted)] + [Taint(Public, Standard)] + [Taint(Public, Trusted)] + [Taint(Public, Attested)];
    c := Command.CrossOutput(Burn([]));
    RunTaints(bg, Public, Untrusted, Public, Standard, Public, Trusted, Public, Attested);
    assert {Public, Public, Public, Public} == {Public};
    CrossFullExcess(bg, cmds, {Public}, integs, []);
  }

  // ---- New balances ----

  function GrantKey(i: nat): CrossingKey {
    CrossingKey(ROOT, BigEndian(i, 2))
  }

  ghost function GrantTable(n: nat): map<CrossingKey, CrossingGrant> {
    if n == 0 then map[] else GrantTable(n - 1)[GrantKey(n - 1) := CrossingGrant(1, 1)]
  }

  ghost function GrantNth(i: nat): CommandK {
    Command.GrantCrossing(ROOT, ROOT, BigEndian(i, 2), 1)
  }

  ghost function Granted(n: nat): State {
    Initial().(grants := GrantTable(n))
  }

  lemma {:induction false} GrantKeys(n: nat, key: CrossingKey)
    requires key in GrantTable(n)
    ensures key.assignment in Names(n, 2)
  {
    if key != GrantKey(n - 1) {
      GrantKeys(n - 1, key);
    }
  }

  lemma {:induction false} GrantTableSize(n: nat)
    requires n <= 65_536
    ensures |GrantTable(n)| == n && MapCost(GrantTable(n), GrantTexts) == 6 * n
  {
    hide MapCost, Costs;
    if n == 0 {
      NoEntries<CrossingKey, CrossingGrant>(GrantTexts);
    } else {
      var key := GrantKey(n - 1);
      GrantTableSize(n - 1);
      NewName(n - 1, 2);
      if key in GrantTable(n - 1) {
        GrantKeys(n - 1, key);
      }
      PutFresh(GrantTable(n - 1), key, CrossingGrant(1, 1), GrantTexts);
      TwoTexts(key.agent, key.assignment);
    }
  }

  lemma TwoTexts(t: Text, u: Text)
    ensures Costs([t, u]) == Cost(t) + Cost(u)
  {
    assert [t, u] == [t] + [u];
    CostsCons(t, [u]);
    OneText(u);
  }

  lemma GrantedFits()
    ensures StateOk(Granted(MAX_CROSSING_GRANTS)) && |Granted(MAX_CROSSING_GRANTS).grants| == MAX_CROSSING_GRANTS
  {
    hide MapCost, SetCost, NestedShape, GrantTable;
    InitialCost();
    NoEntries<CrossingKey, CrossingGrant>(GrantTexts);
    GrantTableSize(MAX_CROSSING_GRANTS);
    Fits(Granted(MAX_CROSSING_GRANTS));
  }

  lemma RunGrants(bg: Background, n: nat)
    requires bg.rootAgent == ROOT
    ensures Run(bg, [] + Times(n, GrantNth)) == Granted(n)
  {
    hide Run;
    RunNothing(bg);
    forall i: nat | i < n ensures Exec(Granted(i), bg, GrantNth(i)) == Granted(i + 1) {
    }
    RunTimes(bg, [], n, GrantNth, Granted);
  }

  lemma {:induction false} FirstGrant(n: nat)
    requires n > 0
    ensures GrantKey(0) in GrantTable(n)
  {
    if n > 1 {
      FirstGrant(n - 1);
    }
  }

  /** A full table refuses to rebind a key it holds. */
  lemma RegrantShapeExcess(bg: Background) returns (cmds: seq<CommandK>, c: CommandV)
    requires bg.rootAgent == ROOT
    ensures c.GrantCrossing? && |Run(bg, cmds).grants| == MAX_CROSSING_GRANTS && Excess(bg, cmds, c)
  {
    hide StateOk, TextCost, Costs, GrantNth, Times, GrantTable, Names, Excess, Run, BigEndian;
    cmds := [] + Times(MAX_CROSSING_GRANTS, GrantNth);
    c := Command.GrantCrossing(ROOT, ROOT, BigEndian(0, 2), 1);
    RunGrants(bg, MAX_CROSSING_GRANTS);
    GrantedFits();
    FirstGrant(MAX_CROSSING_GRANTS);
    RegrantFits(Granted(MAX_CROSSING_GRANTS), bg, ROOT, ROOT, BigEndian(0, 2), 1);
    ExcessOf(bg, cmds, Granted(MAX_CROSSING_GRANTS), c);
  }

  /** One balance, under a long name. */
  ghost function LongGrant(): State {
    Initial().(grants := map[CrossingKey(ROOT, Zeros(200)) := CrossingGrant(1, 1)])
  }

  lemma RunLongGrant(bg: Background)
    requires bg.rootAgent == ROOT
    ensures Run(bg, [Command.GrantCrossing(ROOT, ROOT, Zeros(200), 1)]) == LongGrant()
  {
    hide Run;
    RunOne(bg, Command.GrantCrossing(ROOT, ROOT, Zeros(200), 1));
    assert Initial().grants[CrossingKey(ROOT, Zeros(200)) := CrossingGrant(1, 1)] == LongGrant().grants;
  }

  lemma LongGrantFits()
    ensures StateOk(LongGrant()) && TextCost(LongGrant()) == 212
  {
    hide MapCost, SetCost, Costs, NestedShape, Zeros;
    InitialCost();
    NoEntries<CrossingKey, CrossingGrant>(GrantTexts);
    PutFresh(map[], CrossingKey(ROOT, Zeros(200)), CrossingGrant(1, 1), GrantTexts);
    TwoTexts(ROOT, Zeros(200));
    assert map[][CrossingKey(ROOT, Zeros(200)) := CrossingGrant(1, 1)] == LongGrant().grants;
    Fits(LongGrant());
  }

  /** A state short of text refuses to rebind a key it holds. */
  lemma RegrantTextExcess(bg: Background) returns (cmds: seq<CommandK>, c: CommandV)
    requires bg.rootAgent == ROOT
    ensures c.GrantCrossing? && |Run(bg, cmds).grants| < MAX_CROSSING_GRANTS && Excess(bg, cmds, c)
  {
    hide StateOk, TextCost, Costs, BurnNth, Times, Names, Excess, Run, Zeros;
    var base := [Command.GrantCrossing(ROOT, ROOT, Zeros(200), 1)];
    cmds := base + Times(BURNS, BurnNth);
    c := Command.GrantCrossing(ROOT, ROOT, Zeros(200), 1);
    RunLongGrant(bg);
    BurnMost(bg, base, LongGrant());
    LongGrantFits();
    BurntFits(LongGrant());
    TwoTexts(ROOT, Zeros(200));
    RegrantFits(Burnt(LongGrant(), BURNS), bg, ROOT, ROOT, Zeros(200), 1);
    ExcessOf(bg, cmds, Burnt(LongGrant(), BURNS), c);
  }

  // ---- Invocations ----

  const AGENT: AgentId := [1]
  const TOOL: ToolId := [2]
  const INV: InvocationId := [3]

  /** A policy that any unlabelled agent satisfies, and one that demands an inspection. */
  const QUIET: PolicyV := Policy(TOOL, [], Restricted, Untrusted, Untrusted, Public, Attested, [], [])
  const SUSPECT: PolicyV := Policy(TOOL, [], Restricted, Attested, Untrusted, Public, Untrusted, [], [])

  ghost function QuietRecord(a: AgentId): PendingK {
    Pending(a, PolicyOf(QUIET), {}, Plain, Permitted, true, false)
  }

  ghost function SuspectScope(chal: ChallengeId): ScopeK {
    Scope(chal, AGENT, PolicyOf(SUSPECT), {}, [], true)
  }

  /** A state in which `a` may begin: it holds no label, and its records are all quiet. */
  ghost predicate Ready(s: State, a: AgentId) {
    && a in s.active && a != ROOT && TOOL in s.tools
    && Of(s.taint, a) == {} && Of(s.integ, a) == {}
    && forall i | i in s.pending :: s.pending[i] == QuietRecord(a)
  }

  ghost predicate FreshId(s: State, inv: InvocationId) {
    inv !in s.pending && inv !in s.challenges && inv !in s.consumedIds
  }

  lemma QuietGate(s: State, bg: Background, a: AgentId)
    requires Ready(s, a)
    ensures Gate(s, bg, a, PolicyOf(QUIET), {}, true, true)
  {
  }

  lemma SuspectGate(s: State, bg: Background, a: AgentId)
    requires Ready(s, a)
    ensures Gate(s, bg, a, PolicyOf(SUSPECT), {}, true, false) && !Gate(s, bg, a, PolicyOf(SUSPECT), {}, true, true)
  {
  }

  lemma BeginQuiet(s: State, bg: Background, a: AgentId, inv: InvocationId, chal: ChallengeId)
    requires bg.rootAgent == ROOT && Ready(s, a) && FreshId(s, inv)
    ensures var r := BeginStep(s, bg, a, inv, chal, PolicyOf(QUIET), {}, [], true);
            r.Accepted? && r.next == PendNext(s, inv, QuietRecord(a))
    ensures PendsAtOnce(s, bg, a, PolicyOf(QUIET), {}, true)
  {
    hide Gate, PendNext, OpenNext;
    QuietGate(s, bg, a);
  }

  lemma BeginSuspect(s: State, bg: Background, inv: InvocationId, chal: ChallengeId)
    requires bg.rootAgent == ROOT && bg.mode == Enforce && Ready(s, AGENT) && FreshId(s, inv)
    ensures var r := BeginStep(s, bg, AGENT, inv, chal, PolicyOf(SUSPECT), {}, [], true);
            r.Accepted? && r.next == OpenNext(s, inv, SuspectScope(chal))
    ensures !PendsAtOnce(s, bg, AGENT, PolicyOf(SUSPECT), {}, true)
  {
    hide Gate, PendNext, OpenNext;
    SuspectGate(s, bg, AGENT);
  }

  /** A registered tool and one agent below root. */
  ghost function Staffed(a: AgentId): State {
    Initial().(active := {ROOT, a}, parent := map[a := ROOT], tools := {TOOL})
  }

  function Staff(a: AgentId): seq<CommandK> {
    [Command.RegisterTool(TOOL)] + [Command.Delegate(ROOT, a)]
  }

  lemma RunStaff(bg: Background, a: AgentId)
    requires bg.rootAgent == ROOT && a != ROOT
    ensures Run(bg, Staff(a)) == Staffed(a)
  {
    hide Run;
    RunOne(bg, Command.RegisterTool(TOOL));
    RunNext(bg, [Command.RegisterTool(TOOL)], Command.Delegate(ROOT, a));
    assert {ROOT} + {a} == {ROOT, a} && {} + {TOOL} == {TOOL};
    StaffStep(bg, a);
  }

  lemma StaffStep(bg: Background, a: AgentId)
    requires bg.rootAgent == ROOT && a != ROOT
    ensures Exec(Initial().(tools := {TOOL}), bg, Command.Delegate(ROOT, a)) == Staffed(a)
  {
    var s := Initial().(tools := {TOOL});
    DelegateOwned(s, a);
    DelegateOnlyAdds(s, bg, ROOT, a);
    assert {ROOT} + {a} == {ROOT, a} && map[][a := ROOT] == map[a := ROOT];
  }

  lemma DelegateOwned(s: State, a: AgentId)
    requires s == Initial().(tools := {TOOL})
    ensures Owning(s)
  {
    InitialInv(Background(map[], map[], Enforce, ROOT));
  }

  lemma StaffedFits(a: AgentId)
    requires a != ROOT && |a| <= 100
    ensures StateOk(Staffed(a)) && TextCost(Staffed(a)) == 13 + 2 * |a|
  {
    hide MapCost, SetCost, Costs, NestedShape;
    InitialCost();
    EmptyCosts();
    assert Initial().active == {ROOT} && {ROOT} + {a} == {ROOT, a} && {} + {TOOL} == {TOOL};
    AddFresh({ROOT}, a);
    AddFresh({}, TOOL);
    NoEntries<AgentId, AgentId>(ParentTexts);
    PutFresh(map[], a, ROOT, ParentTexts);
    assert map[][a := ROOT] == map[a := ROOT];
    TwoTexts(a, ROOT);
    Fits(Staffed(a));
  }

  lemma PendFits(s: State, inv: InvocationId, j: PendingK)
    requires StateOk(s) && FreshId(s, inv) && |s.pending| < MAX_PENDING && |s.consumedIds| < MAX_CONSUMED_IDS
    requires !j.admission.Inspected?
    requires TextCost(s) + 2 * Cost(inv) + Cost(j.agent) + Cost(j.policy.tool) + Cost(j.policy.policyDigest) <= MAX_RETAINED_UTF8_BYTES
    ensures StateOk(PendNext(s, inv, j))
    ensures TextCost(PendNext(s, inv, j))
         == TextCost(s) + 2 * Cost(inv) + Cost(j.agent) + Cost(j.policy.tool) + Cost(j.policy.policyDigest)
  {
    hide MapCost, SetCost, Costs, NestedShape;
    AddFresh(s.consumedIds, inv);
    PutFresh(s.pending, inv, j, PendingTexts);
    FourTexts(inv, j.agent, j.policy.tool, j.policy.policyDigest);
    assert PendingTexts(inv, j) == [inv, j.agent, j.policy.tool, j.policy.policyDigest];
    Fits(PendNext(s, inv, j));
  }

  lemma FourTexts(t: Text, u: Text, v: Text, w: Text)
    ensures Costs([t, u, v, w]) == Cost(t) + Cost(u) + Cost(v) + Cost(w)
  {
    assert [t, u, v, w] == [t, u] + [v, w];
    CostsAppend([t, u], [v, w]);
    TwoTexts(t, u);
    TwoTexts(v, w);
  }

  lemma SixTexts(t: Text, u: Text, v: Text, w: Text, x: Text, y: Text)
    ensures Costs([t, u, v, w, x, y]) == Cost(t) + Cost(u) + Cost(v) + Cost(w) + Cost(x) + Cost(y)
  {
    assert [t, u, v, w, x, y] == [t, u, v, w] + [x, y];
    CostsAppend([t, u, v, w], [x, y]);
    FourTexts(t, u, v, w);
    TwoTexts(x, y);
  }

  lemma OpenFits(s: State, inv: InvocationId, chal: ChallengeId)
    requires StateOk(s) && FreshId(s, inv) && |s.challenges| < MAX_CHALLENGES && |s.consumedIds| < MAX_CONSUMED_IDS
    requires TextCost(s) + 2 * Cost(inv) + Cost(chal) + 2 <= MAX_RETAINED_UTF8_BYTES
    ensures StateOk(OpenNext(s, inv, SuspectScope(chal)))
    ensures TextCost(OpenNext(s, inv, SuspectScope(chal))) == TextCost(s) + 2 * Cost(inv) + Cost(chal) + 2
  {
    hide MapCost, SetCost, Costs, NestedShape;
    AddFresh(s.consumedIds, inv);
    PutFresh(s.challenges, inv, SuspectScope(chal), ScopeTexts);
    SixTexts(inv, chal, AGENT, TOOL, [], []);
    Fits(OpenNext(s, inv, SuspectScope(chal)));
  }

  // ---- Many records, many challenges ----

  /** The same value under each of the first `n` names. */
  ghost function Table<V>(n: nat, v: V): map<Text, V> {
    if n == 0 then map[] else Table(n - 1, v)[BigEndian(n - 1, 2) := v]
  }

  lemma {:induction false} TableKeys<V>(n: nat, v: V)
    ensures Table(n, v).Keys == Names(n, 2)
    ensures forall t | t in Table(n, v) :: Table(n, v)[t] == v
  {
    if n > 0 {
      TableKeys(n - 1, v);
    }
  }

  lemma {:induction false} TableSize<V>(n: nat, v: V, texts: (Text, V) -> seq<Text>)
    requires n <= 65_536
    requires forall i: nat | i < n :: Costs(texts(BigEndian(i, 2), v)) == 4
    ensures |Table(n, v)| == n && MapCost(Table(n, v), texts) == 4 * n
  {
    hide MapCost, Costs, BigEndian;
    if n == 0 {
      NoEntries<Text, V>(texts);
    } else {
      TableSize(n - 1, v, texts);
      TableKeys(n - 1, v);
      NewName(n - 1, 2);
      PutFresh(Table(n - 1, v), BigEndian(n - 1, 2), v, texts);
    }
  }

  ghost function Busy(s: State, n: nat): State {
    s.(pending := Table(n, QuietRecord(AGENT)), consumedIds := s.consumedIds + Names(n, 2))
  }

  ghost function BusyNth(i: nat): CommandK {
    Command.BeginInvocation(AGENT, BigEndian(i, 2), [], PolicyOf(QUIET), {}, [], true)
  }

  ghost function Crowded(s: State, n: nat): State {
    s.(challenges := Table(n, SuspectScope([])), consumedIds := s.consumedIds + Names(n, 2))
  }

  ghost function CrowdedNth(i: nat): CommandK {
    Command.BeginInvocation(AGENT, BigEndian(i, 2), [], PolicyOf(SUSPECT), {}, [], true)
  }

  /** No id of two bytes has been used. */
  ghost predicate Unnamed(s: State) {
    forall t: Text | |t| == 2 :: t !in s.challenges && t !in s.consumedIds
  }

  lemma BusyStep(bg: Background, s: State, i: nat)
    requires bg.rootAgent == ROOT && i < 65_536 && Ready(s, AGENT) && Unnamed(s) && s.pending == map[]
    ensures Exec(Busy(s, i), bg, BusyNth(i)) == Busy(s, i + 1)
  {
    hide BeginStep, Step;
    TableKeys(i, QuietRecord(AGENT));
    NewName(i, 2);
    BeginQuiet(Busy(s, i), bg, AGENT, BigEndian(i, 2), []);
    BeginIs(Busy(s, i), bg, BusyNth(i));
    assert s.consumedIds + Names(i, 2) + {BigEndian(i, 2)} == s.consumedIds + Names(i + 1, 2);
  }

  lemma BeginIs(s: State, bg: Background, c: CommandK)
    requires c.BeginInvocation?
    ensures Step(s, bg, c) == BeginStep(s, bg, c.agent, c.inv, c.challenge, c.policy, c.egress, c.argsHash, c.authorized)
  {
    hide BeginStep;
  }

  lemma CrowdedStep(bg: Background, s: State, i: nat)
    requires bg.rootAgent == ROOT && bg.mode == Enforce && i < 65_536
    requires Ready(s, AGENT) && Unnamed(s) && s.pending == map[] && s.challenges == map[]
    ensures Exec(Crowded(s, i), bg, CrowdedNth(i)) == Crowded(s, i + 1)
  {
    hide BeginStep, Step;
    TableKeys(i, SuspectScope([]));
    NewName(i, 2);
    BeginSuspect(Crowded(s, i), bg, BigEndian(i, 2), []);
    BeginIs(Crowded(s, i), bg, CrowdedNth(i));
    assert s.consumedIds + Names(i, 2) + {BigEndian(i, 2)} == s.consumedIds + Names(i + 1, 2);
  }

  lemma RunBusy(bg: Background, base: seq<CommandK>, s: State)
    requires bg.rootAgent == ROOT && Run(bg, base) == s
    requires Ready(s, AGENT) && Unnamed(s) && s.pending == map[]
    ensures Run(bg, base + Times(MAX_PENDING, BusyNth)) == Busy(s, MAX_PENDING)
  {
    hide Run, Exec, Busy, BusyNth, Ready, Unnamed;
    forall i: nat | i < MAX_PENDING ensures Exec(Busy(s, i), bg, BusyNth(i)) == Busy(s, i + 1) {
      BusyStep(bg, s, i);
    }
    NotBusy(s);
    RunTimes(bg, base, MAX_PENDING, BusyNth, (i: nat) => Busy(s, i));
  }

  lemma NotBusy(s: State)
    requires s.pending == map[]
    ensures Busy(s, 0) == s
  {
  }

  lemma NotCrowded(s: State)
    requires s.challenges == map[]
    ensures Crowded(s, 0) == s
  {
  }

  lemma RunCrowded(bg: Background, base: seq<CommandK>, s: State)
    requires bg.rootAgent == ROOT && bg.mode == Enforce && Run(bg, base) == s
    requires Ready(s, AGENT) && Unnamed(s) && s.pending == map[] && s.challenges == map[]
    ensures Run(bg, base + Times(MAX_CHALLENGES, CrowdedNth)) == Crowded(s, MAX_CHALLENGES)
  {
    hide Run, Exec, Crowded, CrowdedNth, Ready, Unnamed;
    forall i: nat | i < MAX_CHALLENGES ensures Exec(Crowded(s, i), bg, CrowdedNth(i)) == Crowded(s, i + 1) {
      CrowdedStep(bg, s, i);
    }
    NotCrowded(s);
    RunTimes(bg, base, MAX_CHALLENGES, CrowdedNth, (i: nat) => Crowded(s, i));
  }

  lemma {:induction false} NamesBesides(ids: set<Text>, n: nat)
    ensures |ids + Names(n, 2)| <= |ids| + n && SetCost(ids + Names(n, 2)) <= SetCost(ids) + 2 * n
  {
    hide SetCost;
    if n == 0 {
      assert ids + {} == ids;
    } else {
      NamesBesides(ids, n - 1);
      AddText(ids + Names(n - 1, 2), BigEndian(n - 1, 2));
      assert ids + Names(n, 2) == ids + Names(n - 1, 2) + {BigEndian(n - 1, 2)};
    }
  }

  lemma BusyFits(s: State)
    requires StateOk(s) && TextCost(s) <= 256 && s.pending == map[] && |s.consumedIds| <= 1
    ensures StateOk(Busy(s, MAX_PENDING)) && |Busy(s, MAX_PENDING).pending| == MAX_PENDING
    ensures TextCost(Busy(s, MAX_PENDING)) <= TextCost(s) + 6 * MAX_PENDING
    ensures |Busy(s, MAX_PENDING).consumedIds| <= 1 + MAX_PENDING
  {
    hide MapCost, SetCost, Costs, NestedShape, Table, Names;
    NamesBesides(s.consumedIds, MAX_PENDING);
    NoEntries<InvocationId, PendingK>(PendingTexts);
    forall i: nat | i < MAX_PENDING ensures Costs(PendingTexts(BigEndian(i, 2), QuietRecord(AGENT))) == 4 {
      FourTexts(BigEndian(i, 2), AGENT, TOOL, []);
      assert PendingTexts(BigEndian(i, 2), QuietRecord(AGENT)) == [BigEndian(i, 2), AGENT, TOOL, []];
    }
    TableSize(MAX_PENDING, QuietRecord(AGENT), PendingTexts);
    Fits(Busy(s, MAX_PENDING));
  }

  lemma CrowdedFits(s: State)
    requires StateOk(s) && TextCost(s) <= 256 && s.challenges == map[] && |s.consumedIds| <= 1
    ensures StateOk(Crowded(s, MAX_CHALLENGES)) && |Crowded(s, MAX_CHALLENGES).challenges| == MAX_CHALLENGES
    ensures TextCost(Crowded(s, MAX_CHALLENGES)) <= TextCost(s) + 6 * MAX_CHALLENGES
    ensures |Crowded(s, MAX_CHALLENGES).consumedIds| <= 1 + MAX_CHALLENGES
  {
    hide MapCost, SetCost, Costs, NestedShape, Table, Names;
    NamesBesides(s.consumedIds, MAX_CHALLENGES);
    NoEntries<InvocationId, ScopeK>(ScopeTexts);
    forall i: nat | i < MAX_CHALLENGES ensures Costs(ScopeTexts(BigEndian(i, 2), SuspectScope([]))) == 4 {
      SixTexts(BigEndian(i, 2), [], AGENT, TOOL, [], []);
    }
    TableSize(MAX_CHALLENGES, SuspectScope([]), ScopeTexts);
    Fits(Crowded(s, MAX_CHALLENGES));
  }

  // ---- Idle reservations of an admission ----

  function Begin(a: AgentId, policy: PolicyV, inv: InvocationId, chal: ChallengeId): CommandV {
    Command.BeginInvocation(a, inv, chal, policy, [], [], true)
  }

  lemma BeginOf(a: AgentId, policy: PolicyV, inv: InvocationId, chal: ChallengeId)
    requires policy == QUIET || policy == SUSPECT
    requires |a| <= MAX_OPAQUE_UTF8_BYTES && |inv| <= MAX_OPAQUE_UTF8_BYTES && |chal| <= MAX_OPAQUE_UTF8_BYTES
    ensures CommandFits(Begin(a, policy, inv, chal)) && AsSet<EgressKind>([]) == {}
    ensures CommandOf(Begin(a, policy, inv, chal)) == Command.BeginInvocation(a, inv, chal, PolicyOf(policy), {}, [], true)
  {
    assert AsSet<EgressKind>([]) == {};
  }

  lemma QuietExcess(bg: Background, cmds: seq<CommandK>, s: State, chal: ChallengeId)
    requires bg.rootAgent == ROOT && |cmds| < MAX_ACCEPTED_SEQUENCE && s == Run(bg, cmds)
    requires StateOk(s) && Ready(s, AGENT) && FreshId(s, INV) && |s.pending| < MAX_PENDING && |s.consumedIds| < MAX_CONSUMED_IDS
    requires TextCost(s) + 4 <= MAX_RETAINED_UTF8_BYTES && |chal| <= MAX_OPAQUE_UTF8_BYTES
    requires |s.challenges| == MAX_CHALLENGES || TextCost(s) + |chal| > MAX_RETAINED_UTF8_BYTES
    ensures Excess(bg, cmds, Begin(AGENT, QUIET, INV, chal))
  {
    hide StateOk, TextCost, BeginStep, Ready, FreshId, Excess, Run, CommandOf, PendsAtOnce, CommandFits, AsSet, PendNext, Costs;
    BeginQuiet(s, bg, AGENT, INV, chal);
    PendFits(s, INV, QuietRecord(AGENT));
    BeginOf(AGENT, QUIET, INV, chal);
    BeginReserves(chal);
    ExcessOf(bg, cmds, s, Begin(AGENT, QUIET, INV, chal));
  }

  lemma BeginReserves(chal: ChallengeId)
    ensures Costs([INV, INV, AGENT, chal, TOOL, [], []]) >= Cost(chal)
  {
    CostsMember([INV, INV, AGENT, chal, TOOL, [], []], chal);
  }

  lemma SuspectExcess(bg: Background, cmds: seq<CommandK>, s: State)
    requires bg.rootAgent == ROOT && bg.mode == Enforce && |cmds| < MAX_ACCEPTED_SEQUENCE && s == Run(bg, cmds)
    requires StateOk(s) && Ready(s, AGENT) && FreshId(s, INV)
    requires |s.challenges| < MAX_CHALLENGES && |s.consumedIds| < MAX_CONSUMED_IDS && |s.pending| == MAX_PENDING
    requires TextCost(s) + 4 <= MAX_RETAINED_UTF8_BYTES
    ensures Excess(bg, cmds, Begin(AGENT, SUSPECT, INV, []))
  {
    hide StateOk, TextCost, BeginStep, Ready, FreshId, Excess, Run, CommandOf, PendsAtOnce, CommandFits, AsSet, OpenNext, Costs;
    BeginSuspect(s, bg, INV, []);
    OpenFits(s, INV, []);
    BeginOf(AGENT, SUSPECT, INV, []);
    ExcessOf(bg, cmds, s, Begin(AGENT, SUSPECT, INV, []));
  }

  lemma StaffedIsReady(a: AgentId)
    requires a != ROOT
    ensures Ready(Staffed(a), a) && Unnamed(Staffed(a))
  {
  }

  lemma UnusedName(inv: InvocationId, n: nat)
    requires |inv| != 2
    ensures inv !in Names(n, 2)
  {
    if inv in Names(n, 2) {
      var i := NamesBelow(n, 2, inv);
    }
  }

  lemma CrowdedIsReady()
    ensures Ready(Crowded(Staffed(AGENT), MAX_CHALLENGES), AGENT) && FreshId(Crowded(Staffed(AGENT), MAX_CHALLENGES), INV)
  {
    hide Table, Names;
    TableKeys(MAX_CHALLENGES, SuspectScope([]));
    UnusedName(INV, MAX_CHALLENGES);
  }

  lemma StaffedIsEmpty(a: AgentId)
    ensures var s := Staffed(a); s.pending == map[] && s.challenges == map[] && s.consumedIds == {} && s.consumedCrossings == {}
  {
  }

  lemma CrowdedFrame(s: State)
    ensures Crowded(s, MAX_CHALLENGES).pending == s.pending
  {
  }

  lemma BusyFrame(s: State)
    ensures Busy(s, MAX_PENDING).challenges == s.challenges && Busy(s, MAX_PENDING).consumedAttestations == s.consumedAttestations
  {
  }

  /** An allowed invocation is refused because no further challenge could be opened. */
  lemma BeginChallengeExcess(bg: Background) returns (cmds: seq<CommandK>, c: CommandV)
    requires bg.rootAgent == ROOT && bg.mode == Enforce
    ensures c.BeginInvocation? && |Run(bg, cmds).challenges| == MAX_CHALLENGES && Excess(bg, cmds, c)
  {
    hide StateOk, TextCost, CrowdedNth, Times, Crowded, Ready, FreshId, Unnamed, Excess, Run, Staffed;
    cmds, c := Staff(AGENT) + Times(MAX_CHALLENGES, CrowdedNth), Begin(AGENT, QUIET, INV, []);
    StaffedIsReady(AGENT);
    RunStaff(bg, AGENT);
    StaffedFits(AGENT);
    StaffedIsEmpty(AGENT);
    RunCrowded(bg, Staff(AGENT), Staffed(AGENT));
    CrowdedFits(Staffed(AGENT));
    CrowdedFrame(Staffed(AGENT));
    CrowdedIsReady();
    QuietExcess(bg, cmds, Crowded(Staffed(AGENT), MAX_CHALLENGES), []);
  }

  lemma BusyIsReady(s: State)
    requires Ready(s, AGENT) && FreshId(s, INV)
    ensures Ready(Busy(s, MAX_PENDING), AGENT) && FreshId(Busy(s, MAX_PENDING), INV)
  {
    hide Table, Names;
    TableKeys(MAX_PENDING, QuietRecord(AGENT));
    UnusedName(INV, MAX_PENDING);
  }

  /** An inspected invocation is refused because no further record could be kept. */
  lemma BeginRecordExcess(bg: Background) returns (cmds: seq<CommandK>, c: CommandV)
    requires bg.rootAgent == ROOT && bg.mode == Enforce
    ensures c.BeginInvocation? && |Run(bg, cmds).pending| == MAX_PENDING && Excess(bg, cmds, c)
  {
    hide StateOk, TextCost, BusyNth, Times, Busy, Ready, Unnamed, Excess, Run, Staffed;
    cmds, c := Staff(AGENT) + Times(MAX_PENDING, BusyNth), Begin(AGENT, SUSPECT, INV, []);
    StaffedIsReady(AGENT);
    RunStaff(bg, AGENT);
    StaffedFits(AGENT);
    StaffedIsEmpty(AGENT);
    RunBusy(bg, Staff(AGENT), Staffed(AGENT));
    BusyFits(Staffed(AGENT));
    BusyFrame(Staffed(AGENT));
    BusyIsReady(Staffed(AGENT));
    SuspectExcess(bg, cmds, Busy(Staffed(AGENT), MAX_PENDING));
  }

  lemma BurntIsReady(a: AgentId)
    requires a != ROOT
    ensures var s := Burnt(Staffed(a), BURNS);
            Ready(s, a) && FreshId(s, INV) && s.pending == map[] && s.consumedIds == {} && s.challenges == map[]
  {
    hide Names;
  }

  /** An allowed invocation is refused for the text of the challenge it does not open. */
  lemma BeginTextExcess(bg: Background) returns (cmds: seq<CommandK>, c: CommandV)
    requires bg.rootAgent == ROOT && bg.mode == Enforce
    ensures c.BeginInvocation? && Run(bg, cmds).challenges == map[] && Excess(bg, cmds, c)
  {
    hide StateOk, TextCost, BurnNth, Times, Burnt, Ready, Excess, Run, Staffed, Zeros;
    var chal := Zeros(250);
    cmds, c := Staff(AGENT) + Times(BURNS, BurnNth), Begin(AGENT, QUIET, INV, chal);
    RunStaff(bg, AGENT);
    StaffedFits(AGENT);
    StaffedIsEmpty(AGENT);
    StaffedIsIdle(AGENT);
    BurnMost(bg, Staff(AGENT), Staffed(AGENT));
    BurntFits(Staffed(AGENT));
    BurntIsReady(AGENT);
    QuietExcess(bg, cmds, Burnt(Staffed(AGENT), BURNS), chal);
  }

  lemma StaffedIsIdle(a: AgentId)
    ensures ROOT in Staffed(a).active && !InFlight(Staffed(a).pending, ROOT)
  {
  }

  // ---- Idle reservations of a resolution ----

  /** One open challenge. */
  ghost function Waiting(): State {
    OpenNext(Staffed(AGENT), INV, SuspectScope([]))
  }

  ghost function Wait(): seq<CommandK> {
    Staff(AGENT) + [Command.BeginInvocation(AGENT, INV, [], PolicyOf(SUSPECT), {}, [], true)]
  }

  lemma RunWait(bg: Background)
    requires bg.rootAgent == ROOT && bg.mode == Enforce
    ensures Run(bg, Wait()) == Waiting()
  {
    hide Run, BeginStep, OpenNext, Step, Ready;
    var c := Command.BeginInvocation(AGENT, INV, [], PolicyOf(SUSPECT), {}, [], true);
    RunStaff(bg, AGENT);
    RunNext(bg, Staff(AGENT), c);
    StaffedIsReady(AGENT);
    BeginSuspect(Staffed(AGENT), bg, INV, []);
    BeginIs(Staffed(AGENT), bg, c);
  }

  lemma WaitingFits()
    ensures StateOk(Waiting()) && TextCost(Waiting()) == 19
  {
    hide StateOk, TextCost, OpenNext, Staffed;
    StaffedFits(AGENT);
    StaffedIsEmpty(AGENT);
    OpenFits(Staffed(AGENT), INV, []);
  }

  lemma WaitingIs()
    ensures var s := Waiting();
            && Ready(s, AGENT) && Unnamed(s) && s.pending == map[] && s.consumedIds == {INV} && s.consumedAttestations == {}
            && s.challenges == map[INV := SuspectScope([])] && s.consumedCrossings == {} && ROOT in s.active
  {
    StaffedIsReady(AGENT);
  }

  /** A negative verdict on the one challenge. */
  function Reject(id: AttestationId): CommandV {
    Command.AuthorizeInspected(INV, InspectionAttestation(id, INV, [], [], [], false))
  }

  lemma RejectExcess(bg: Background, cmds: seq<CommandK>, s: State, id: AttestationId)
    requires bg.rootAgent == ROOT && |cmds| < MAX_ACCEPTED_SEQUENCE && s == Run(bg, cmds)
    requires StateOk(s) && s.challenges == map[INV := SuspectScope([])] && s.consumedAttestations == {}
    requires |id| <= MAX_OPAQUE_UTF8_BYTES && TextCost(s) + |id| <= MAX_RETAINED_UTF8_BYTES
    requires |s.pending| == MAX_PENDING || TextCost(s) + 2 * |id| > MAX_RETAINED_UTF8_BYTES
    ensures Excess(bg, cmds, Reject(id))
  {
    hide StateOk, TextCost, Costs, AuthorizeStep, Excess, Run, CommandFits, Spec.AuthorizeAdmits;
    RejectFits(s, bg, id);
    RejectReserves(id);
    ExcessOf(bg, cmds, s, Reject(id));
  }

  lemma RejectReserves(id: AttestationId)
    requires |id| <= MAX_OPAQUE_UTF8_BYTES
    ensures CommandFits(Reject(id)) && Costs([id, id] + [INV, AGENT, TOOL, []]) >= 2 * Cost(id)
  {
    hide Costs;
    CostsAppend([id, id], [INV, AGENT, TOOL, []]);
    TwoTexts(id, id);
  }

  lemma RejectFits(s: State, bg: Background, id: AttestationId)
    requires StateOk(s) && s.challenges == map[INV := SuspectScope([])] && s.consumedAttestations == {}
    requires |id| <= MAX_OPAQUE_UTF8_BYTES && TextCost(s) + |id| <= MAX_RETAINED_UTF8_BYTES
    ensures var att := InspectionAttestation(id, INV, [], [], [], false);
            AuthorizeStep(s, bg, INV, att).Accepted? && StateOk(AuthorizeStep(s, bg, INV, att).next)
  {
    hide MapCost, SetCost, Costs, NestedShape, Spec.AuthorizeAdmits;
    var att := InspectionAttestation(id, INV, [], [], [], false);
    AddFresh(s.consumedAttestations, id);
    Remove(s.challenges, INV, ScopeTexts);
    Fits(AuthorizeStep(s, bg, INV, att).next);
  }

  /** A negative verdict is refused because no further record could be kept. */
  lemma AuthorizeRecordExcess(bg: Background) returns (cmds: seq<CommandK>, c: CommandV)
    requires bg.rootAgent == ROOT && bg.mode == Enforce
    ensures c.AuthorizeInspected? && !c.attestation.positive && |Run(bg, cmds).pending| == MAX_PENDING && Excess(bg, cmds, c)
  {
    hide StateOk, TextCost, BusyNth, Times, Busy, Ready, Unnamed, Excess, Run, Waiting, Wait;
    cmds, c := Wait() + Times(MAX_PENDING, BusyNth), Reject([]);
    assert |Wait()| == 3 by { WaitIsShort(); }
    RunWait(bg);
    WaitingFits();
    WaitingIs();
    RunBusy(bg, Wait(), Waiting());
    BusyFits(Waiting());
    BusyFrame(Waiting());
    RejectExcess(bg, cmds, Busy(Waiting(), MAX_PENDING), []);
  }

  lemma WaitIsShort()
    ensures |Wait()| == 3
  {
  }

  /** A negative verdict is refused for the text of the record it does not leave. */
  lemma AuthorizeTextExcess(bg: Background) returns (cmds: seq<CommandK>, c: CommandV)
    requires bg.rootAgent == ROOT && bg.mode == Enforce
    ensures c.AuthorizeInspected? && !c.attestation.positive && Run(bg, cmds).pending == map[] && Excess(bg, cmds, c)
  {
    hide StateOk, TextCost, BurnNth, Times, Ready, Unnamed, Excess, Run, Waiting, Wait, Zeros, Names;
    cmds, c := Wait() + Times(BURNS, BurnNth), Reject(Zeros(150));
    assert |Wait()| == 3 by { WaitIsShort(); }
    RunWait(bg);
    WaitingFits();
    WaitingIs();
    BurnMost(bg, Wait(), Waiting());
    BurntFits(Waiting());
    RejectExcess(bg, cmds, Burnt(Waiting(), BURNS), Zeros(150));
  }

  // ---- Idle reservations of a settlement ----

  const LONG_AGENT: AgentId := Zeros(60)

  /** One quiet record of an agent with a long name. */
  ghost function Running(): State {
    PendNext(Staffed(LONG_AGENT), INV, QuietRecord(LONG_AGENT))
  }

  ghost function Start(): seq<CommandK> {
    Staff(LONG_AGENT) + [Command.BeginInvocation(LONG_AGENT, INV, [], PolicyOf(QUIET), {}, [], true)]
  }

  lemma RunStart(bg: Background)
    requires bg.rootAgent == ROOT
    ensures Run(bg, Start()) == Running()
  {
    hide Run, BeginStep, PendNext, Step, Ready;
    var c := Command.BeginInvocation(LONG_AGENT, INV, [], PolicyOf(QUIET), {}, [], true);
    RunStaff(bg, LONG_AGENT);
    RunNext(bg, Staff(LONG_AGENT), c);
    StaffedIsReady(LONG_AGENT);
    BeginQuiet(Staffed(LONG_AGENT), bg, LONG_AGENT, INV, []);
    BeginIs(Staffed(LONG_AGENT), bg, c);
  }

  lemma RunningFits()
    ensures StateOk(Running()) && TextCost(Running()) == 196
  {
    hide StateOk, TextCost, PendNext, Staffed;
    StaffedFits(LONG_AGENT);
    StaffedIsEmpty(LONG_AGENT);
    PendFits(Staffed(LONG_AGENT), INV, QuietRecord(LONG_AGENT));
  }

  lemma RunningIs()
    ensures var s := Running();
            && s.pending == map[INV := QuietRecord(LONG_AGENT)] && LONG_AGENT in s.active && ROOT in s.active
            && !InFlight(s.pending, ROOT) && s.consumedCrossings == {} && s.taint == map[] && s.integ == map[]
            && s.consumedAttestations == {} && |Start()| == 3
  {
  }

  const SETTLE: CommandV := Command.SettleInvocation(INV, Success, None)

  /** Settling releases two label keys of sixty bytes and frees a record of sixty-two. */
  lemma SettleSuccess(s: State, bg: Background)
    requires StateOk(s) && s.pending == map[INV := QuietRecord(LONG_AGENT)] && LONG_AGENT in s.active
    requires s.taint == map[] && s.integ == map[] && TextCost(s) + 58 <= MAX_RETAINED_UTF8_BYTES
    ensures SettleStep(s, INV, Success, None).Accepted? && StateOk(SettleStep(s, INV, Success, None).next)
  {
    hide MapCost, SetCost, Costs, NestedShape, Extend, Zeros;
    var j := QuietRecord(LONG_AGENT);
    ExtendExact(s.taint, LONG_AGENT, {j.policy.outputConf});
    ExtendExact(s.integ, LONG_AGENT, {j.policy.outputInteg});
    MapCostPick(s.pending, INV, PendingTexts);
    FourTexts(INV, LONG_AGENT, TOOL, []);
    assert PendingTexts(INV, j) == [INV, LONG_AGENT, TOOL, []];
    assert s.consumedAttestations + {} == s.consumedAttestations;
    Fits(SettleStep(s, INV, Success, None).next);
  }

  /** A settlement is refused for the text of two label keys, although it frees a record. */
  lemma SettleTextExcess(bg: Background) returns (cmds: seq<CommandK>, c: CommandV)
    requires bg.rootAgent == ROOT
    ensures c.SettleInvocation? && c.resolution == None && Excess(bg, cmds, c)
  {
    hide StateOk, TextCost, Costs, BurnNth, Times, Excess, Run, Running, Start, Zeros, Names, SettleStep;
    cmds, c := Start() + Times(BURNS, BurnNth), SETTLE;
    RunStart(bg);
    RunningFits();
    RunningIs();
    BurnMost(bg, Start(), Running());
    BurntFits(Running());
    SettleSuccess(Burnt(Running(), BURNS), bg);
    TwoTexts(LONG_AGENT, LONG_AGENT);
    assert [LONG_AGENT, LONG_AGENT] + [] == [LONG_AGENT, LONG_AGENT];
    ExcessOf(bg, cmds, Burnt(Running(), BURNS), c);
  }

  // ---- The idle evidence slot of a crossing ----

  const KEY: CrossingKey := CrossingKey(ROOT, [])

  /** Root crosses to itself under an assignment that its evidence meets, or does not. */
  function Attest(id: Text, positive: bool): CrossInput {
    CrossInput(ROOT, ROOT, id, [], [], FallbackFail, Attested, Some(Public), [],
               Some(ConformanceAttestation(id, [], ROOT, ROOT, [], [], positive)), Public, Attested)
  }

  /** One challenge open, and `n` of the granted crossings made, each spending an attestation. */
  ghost function Attesting(n: nat): State {
    Waiting().(taint := map[ROOT := {Public}], integ := map[ROOT := {Attested}],
               grants := map[KEY := CrossingGrant(if n < BURNS then (BURNS - n) as U32 else 0, BURNS as U32)],
               consumedAttestations := Names(n, 2), consumedCrossings := Names(n, 2))
  }

  ghost function AttestNth(i: nat): CommandK {
    Command.CrossOutput(Attest(BigEndian(i, 2), true))
  }

  lemma AttestStep(bg: Background, i: nat)
    requires i < BURNS
    ensures Exec(Attesting(i), bg, AttestNth(i)) == Attesting(i + 1)
  {
    hide Names, Waiting, BigEndian;
    WaitingIs();
    NewName(i, 2);
    NextName(i, 2);
    EndorsedStep(Attesting(i), bg, BigEndian(i, 2));
  }

  lemma NextName(i: nat, width: nat)
    ensures Names(i + 1, width) == Names(i, width) + {BigEndian(i, width)}
  {
  }

  lemma EndorsedStep(s: State, bg: Background, id: Text)
    requires ROOT in s.active && s.pending == map[] && id !in s.consumedCrossings && id !in s.consumedAttestations
    requires s.taint == map[ROOT := {Public}] && s.integ == map[ROOT := {Attested}]
    requires KEY in s.grants && s.grants[KEY].remaining > 0
    ensures Step(s, bg, Command.CrossOutput(Attest(id, true))).Accepted?
    ensures Step(s, bg, Command.CrossOutput(Attest(id, true))).next
         == s.(consumedAttestations := s.consumedAttestations + {id}, consumedCrossings := s.consumedCrossings + {id},
               grants := s.grants[KEY := CrossingGrant(s.grants[KEY].remaining - 1, s.grants[KEY].provisioned)])
  {
    var q := Attest(id, true);
    assert Spec.EndorsedOk(s, q) && WithinBounds(s, q);
    ExtendOne(s.taint, ROOT, Public);
    ExtendOne(s.integ, ROOT, Attested);
  }

  lemma ExtendOne<T>(m: map<AgentId, set<T>>, a: AgentId, x: T)
    requires m == map[] || m == map[a := {x}]
    ensures Extend(m, a, {x}) == map[a := {x}]
  {
    assert Of(m, a) + {x} == {x};
  }

  ghost function Prepare(): seq<CommandK> {
    Wait() + [Command.GrantCrossing(ROOT, ROOT, [], BURNS as U32)] + [Taint(Public, Attested)]
  }

  lemma RunPrepare(bg: Background)
    requires bg.rootAgent == ROOT && bg.mode == Enforce
    ensures Run(bg, Prepare()) == Attesting(0)
  {
    hide Run, Waiting, Wait, Exec;
    RunWait(bg);
    RunNext(bg, Wait(), Command.GrantCrossing(ROOT, ROOT, [], BURNS as U32));
    RunNext(bg, Wait() + [Command.GrantCrossing(ROOT, ROOT, [], BURNS as U32)], Taint(Public, Attested));
    PrepareSteps(bg);
  }

  lemma PrepareSteps(bg: Background)
    requires bg.rootAgent == ROOT
    ensures Exec(Exec(Waiting(), bg, Command.GrantCrossing(ROOT, ROOT, [], BURNS as U32)), bg, Taint(Public, Attested)) == Attesting(0)
  {
    hide Waiting, Ready, Unnamed;
    WaitingIs();
    WaitingHoldsNothing();
    assert map[][KEY := CrossingGrant(BURNS as U32, BURNS as U32)] == Attesting(0).grants;
    ExtendOne(map[], ROOT, Public);
    ExtendOne(map[], ROOT, Attested);
  }

  lemma WaitingHoldsNothing()
    ensures Waiting().taint == map[] && Waiting().integ == map[] && Waiting().grants == map[]
  {
  }

  /** Every attestation slot is spent: by the crossings, and by a negative verdict on the challenge. */
  ghost function Spent(): State {
    Attesting(BURNS).(challenges := map[], consumedAttestations := Names(BURNS, 2) + {INV})
  }

  ghost function Spend(): seq<CommandK> {
    Prepare() + Times(BURNS, AttestNth) + [CommandOf(Reject(INV))]
  }

  lemma RunSpend(bg: Background)
    requires bg.rootAgent == ROOT && bg.mode == Enforce
    ensures Run(bg, Spend()) == Spent()
  {
    hide Run, Exec, Attesting, AttestNth, Prepare, Names;
    RunPrepare(bg);
    forall i: nat | i < BURNS ensures Exec(Attesting(i), bg, AttestNth(i)) == Attesting(i + 1) {
      AttestStep(bg, i);
    }
    RunTimes(bg, Prepare(), BURNS, AttestNth, Attesting);
    RunNext(bg, Prepare() + Times(BURNS, AttestNth), CommandOf(Reject(INV)));
    RejectLast(bg);
  }

  lemma RejectLast(bg: Background)
    ensures Exec(Attesting(BURNS), bg, CommandOf(Reject(INV))) == Spent()
  {
    hide Names, Waiting, Ready, Unnamed;
    WaitingIs();
    UnusedName(INV, BURNS);
    assert map[INV := SuspectScope([])] - {INV} == map[];
  }

  lemma SpentFits()
    ensures StateOk(Spent()) && |Spent().consumedAttestations| == MAX_CONSUMED_ATTESTATIONS
    ensures TextCost(Spent()) <= 300_000 && |Spent().consumedCrossings| == BURNS
  {
    hide MapCost, SetCost, Costs, NestedShape, Names, Waiting, Ready, Unnamed;
    WaitingFits();
    WaitingIs();
    WaitingHoldsNothing();
    EmptyCosts();
    NamesSize(BURNS, 2);
    UnusedName(INV, BURNS);
    AddFresh(Names(BURNS, 2), INV);
    NoEntries<InvocationId, ScopeK>(ScopeTexts);
    SpentMaps();
    Fits(Spent());
  }

  lemma SpentMaps()
    ensures |Spent().taint| == |Spent().integ| == |Spent().grants| == 1
    ensures LabelCost(Spent().taint) == LabelCost(Spent().integ) == MapCost(Spent().grants, GrantTexts) == 4
    ensures LabelCost<ConfLevel>(map[]) == LabelCost<IntegLevel>(map[]) == MapCost<CrossingKey, CrossingGrant>(map[], GrantTexts) == 0
  {
    hide MapCost, Costs, Names, Waiting;
    var s := Spent();
    NoEntries<AgentId, set<ConfLevel>>(KeyTexts);
    NoEntries<AgentId, set<IntegLevel>>(KeyTexts);
    NoEntries<CrossingKey, CrossingGrant>(GrantTexts);
    OneText(ROOT);
    TwoTexts(ROOT, []);
    assert s.taint == map[][ROOT := {Public}] && s.integ == map[][ROOT := {Attested}] && s.grants == map[][KEY := s.grants[KEY]];
    PutFresh(map[], ROOT, {Public}, KeyTexts);
    PutFresh(map[], ROOT, {Attested}, KeyTexts);
    PutFresh(map[], KEY, s.grants[KEY], GrantTexts);
  }

  /** A crossing is refused for an attestation that it would not spend. */
  lemma CrossEvidenceExcess(bg: Background) returns (cmds: seq<CommandK>, c: CommandV)
    requires bg.rootAgent == ROOT && bg.mode == Enforce
    ensures c.CrossOutput? && c.input.evidence.Some? && !c.input.evidence.value.positive && Excess(bg, cmds, c)
  {
    hide StateOk, TextCost, Costs, Excess, Run, Spent, Spend, CrossStep;
    var q := Attest(INV, false);
    cmds, c := Spend(), Command.CrossOutput(q);
    RunSpend(bg);
    SpentFits();
    SpentIs();
    OneText(INV);
    BurnFits(Spent(), bg, q);
    AttestIsSmall();
    ExcessOf(bg, cmds, Spent(), c);
  }

  lemma AttestIsSmall()
    ensures CommandFits(Command.CrossOutput(Attest(INV, false)))
  {
  }

  lemma SpentIs()
    ensures var s := Spent(); ROOT in s.active && s.pending == map[] && INV !in s.consumedCrossings && |Spend()| == BURNS + 6
  {
    hide Names, Waiting, Ready, Unnamed, Times;
    WaitingIs();
    WaitIsShort();
    UnusedName(INV, BURNS);
  }
}
