/**
  The chained instance on the abstract state: what one live command, one recorded link and one
  finalization do, and what whole live runs and whole recoveries amount to.
*/
module History {
  import opened Types
  import opened Spec
  import opened Transitions
  import opened Collections
  import opened Encoding
  import opened Chain
  import opened HashChains
  import Capacity
  import Invariants

  datatype Envelope = Envelope(
    version: U32,
    sequence: U64,
    previous: Digest,
    digest: Digest,
    command: CommandV,
    action: Action)

  datatype Anchor = Anchor(version: U32, sequence: U64, head: Digest)

  /** An instance: the kernel state, the number of accepted commands and the digest of the last link. */
  datatype Replica = Replica(kernel: State, sequence: U64, head: Digest)

  datatype Applied = Applied(next: Replica, envelope: Envelope)

  ghost function Origin(hash: Hash, bg: Background): Replica {
    Replica(Initial(), 0, hash(GenesisTranscript(bg)))
  }

  /** The envelope and the next instance of an accepted command; nothing is committed. */
  ghost function ApplyStep(hash: Hash, bg: Background, current: Replica, c: CommandV): Result<Applied, Error> {
    match Capacity.Preflight(current.kernel, current.sequence, c)
    case Fail(e) => Err(e)
    case Pass =>
      match Step(current.kernel, bg, CommandOf(c))
      case Refused(cause) => Err(KernelRefusal(cause))
      case Accepted(next, action) => Ok(Seal(hash, current, c, next, action))
  }

  /** Link an accepted command to the head. */
  ghost function Seal(hash: Hash, current: Replica, c: CommandV, next: State, action: Action): Applied
    requires Capacity.SequenceLeft(current.sequence)
  {
    var sequence := current.sequence + 1;
    var digest := hash(LinkTranscript(current.head, sequence, CommandOf(c), action));
    Applied(Replica(next, sequence, digest), Envelope(VERSION, sequence, current.head, digest, c, action))
  }

  /** A recorded link is recomputed, and accepted only if it agrees in every part. */
  ghost function ReplayStep(hash: Hash, bg: Background, current: Replica, recorded: Envelope): Result<Replica, Error> {
    if !Capacity.StateOk(current.kernel) then Err(CapacityExceeded)
    else if !Capacity.SequenceLeft(current.sequence) then Err(SequenceExhausted)
    else if recorded.version != VERSION then Err(InvalidVersion)
    else if recorded.sequence != current.sequence + 1 then Err(SequenceMismatch)
    else if recorded.previous != current.head then Err(PreviousDigestMismatch)
    else Compare(recorded, ApplyStep(hash, bg, current, recorded.command))
  }

  /** The recomputed envelope against the recorded one. */
  function Compare(recorded: Envelope, recomputed: Result<Applied, Error>): Result<Replica, Error> {
    match recomputed
    case Err(e) => Err(if e.KernelRefusal? then ReplayRefused(e.cause) else e)
    case Ok(applied) =>
      if applied.envelope.action != recorded.action then Err(ActionMismatch)
      else if applied.envelope.digest != recorded.digest then Err(DigestMismatch)
      else Ok(applied.next)
  }

  function AnchorOf(sequence: U64, head: Digest): Anchor {
    Anchor(VERSION, sequence, head)
  }

  ghost function FinalizeStep(current: Replica, expected: Anchor): Check {
    if expected.version != VERSION then Fail(InvalidVersion)
    else if expected.sequence != current.sequence || expected.head != current.head then Fail(FinalAnchorMismatch)
    else Pass
  }

  // ---- Whole runs ----

  /** An instance together with the envelopes it has accepted. */
  datatype Trace = Trace(replica: Replica, envelopes: seq<Envelope>)

  /** Live: a refused command changes nothing and leaves no envelope. */
  ghost function Live(hash: Hash, bg: Background, cmds: seq<CommandV>): Trace {
    if cmds == [] then Trace(Origin(hash, bg), [])
    else
      var n := |cmds| - 1;
      var t := Live(hash, bg, cmds[..n]);
      match ApplyStep(hash, bg, t.replica, cmds[n])
      case Ok(applied) => Trace(applied.next, t.envelopes + [applied.envelope])
      case Err(_) => t
  }

  /** Recovery: a rejected link changes nothing, and the next one may still be accepted. */
  ghost function Recover(hash: Hash, bg: Background, links: seq<Envelope>): Trace {
    if links == [] then Trace(Origin(hash, bg), [])
    else
      var n := |links| - 1;
      var t := Recover(hash, bg, links[..n]);
      match ReplayStep(hash, bg, t.replica, links[n])
      case Ok(next) => Trace(next, t.envelopes + [links[n]])
      case Err(_) => t
  }

  function CommandsOf(envelopes: seq<Envelope>): (cmds: seq<CommandV>)
    ensures |cmds| == |envelopes| && forall i | 0 <= i < |cmds| :: cmds[i] == envelopes[i].command
  {
    seq(|envelopes|, i requires 0 <= i < |envelopes| => envelopes[i].command)
  }

  lemma CommandsNext(envelopes: seq<Envelope>, e: Envelope)
    ensures CommandsOf(envelopes + [e]) == CommandsOf(envelopes) + [e.command]
  {
  }

  lemma NothingYet(hash: Hash, bg: Background)
    ensures Live(hash, bg, []) == Trace(Origin(hash, bg), []) == Recover(hash, bg, [])
  {
    hide ApplyStep, ReplayStep;
  }

  lemma LiveNext(hash: Hash, bg: Background, cmds: seq<CommandV>, c: CommandV)
    ensures Live(hash, bg, cmds + [c])
         == (match ApplyStep(hash, bg, Live(hash, bg, cmds).replica, c)
             case Ok(applied) => Trace(applied.next, Live(hash, bg, cmds).envelopes + [applied.envelope])
             case Err(_) => Live(hash, bg, cmds))
  {
    hide ApplyStep;
    assert (cmds + [c])[..|cmds|] == cmds;
  }

  lemma RecoverNext(hash: Hash, bg: Background, links: seq<Envelope>, e: Envelope)
    ensures Recover(hash, bg, links + [e])
         == (match ReplayStep(hash, bg, Recover(hash, bg, links).replica, e)
             case Ok(next) => Trace(next, Recover(hash, bg, links).envelopes + [e])
             case Err(_) => Recover(hash, bg, links))
  {
    hide ReplayStep;
    assert (links + [e])[..|links|] == links;
  }

  /** What an emitted envelope says about the instance that emitted it. */
  lemma EnvelopeSays(hash: Hash, bg: Background, current: Replica, c: CommandV)
    requires ApplyStep(hash, bg, current, c).Ok?
    ensures var a := ApplyStep(hash, bg, current, c).value;
            && Capacity.SequenceLeft(current.sequence) && Capacity.StateOk(current.kernel)
            && a.envelope == Envelope(VERSION, current.sequence + 1, current.head, a.next.head, c, a.envelope.action)
            && a.next.sequence == current.sequence + 1
  {
    hide Capacity.StateOk, Step, LinkTranscript;
  }

  /** What one step of a live instance computes is exactly what one step of recovery accepts. */
  lemma ReplayIsApply(hash: Hash, bg: Background, current: Replica, e: Envelope)
    ensures ReplayStep(hash, bg, current, e).Ok?
       <==> (var r := ApplyStep(hash, bg, current, e.command); r.Ok? && r.value.envelope == e)
    ensures ReplayStep(hash, bg, current, e).Ok? ==>
              ReplayStep(hash, bg, current, e).value == ApplyStep(hash, bg, current, e.command).value.next
  {
    hide Capacity.StateOk, ApplyStep;
    if ApplyStep(hash, bg, current, e.command).Ok? {
      EnvelopeSays(hash, bg, current, e.command);
    }
  }

  /** Every reachable live instance stays within the capacity profile. */
  lemma {:induction false} LiveFits(hash: Hash, bg: Background, cmds: seq<CommandV>)
    ensures Capacity.StateOk(Live(hash, bg, cmds).replica.kernel)
  {
    hide Capacity.StateOk, Step;
    if cmds == [] {
      Capacity.InitialFits();
    } else {
      var n := |cmds| - 1;
      var t := Live(hash, bg, cmds[..n]);
      LiveFits(hash, bg, cmds[..n]);
      if ApplyStep(hash, bg, t.replica, cmds[n]).Ok? {
        Capacity.PreflightSound(t.replica.kernel, bg, t.replica.sequence, cmds[n]);
      }
    }
  }

  /** A live run is the run of its accepted commands alone. */
  lemma {:induction false} LiveOfAccepted(hash: Hash, bg: Background, cmds: seq<CommandV>)
    ensures Live(hash, bg, CommandsOf(Live(hash, bg, cmds).envelopes)) == Live(hash, bg, cmds)
  {
    hide ApplyStep, ReplayStep;
    if cmds == [] {
      assert CommandsOf([]) == [];
    } else {
      var n := |cmds| - 1;
      LiveOfAccepted(hash, bg, cmds[..n]);
      AcceptedNext(hash, bg, Live(hash, bg, cmds[..n]), cmds[n]);
      LiveNext(hash, bg, cmds[..n], cmds[n]);
      assert cmds[..n] + [cmds[n]] == cmds;
    }
  }

  /** Extending a live run by an accepted command extends the run of its accepted commands alike. */
  lemma AcceptedNext(hash: Hash, bg: Background, t: Trace, c: CommandV)
    requires Live(hash, bg, CommandsOf(t.envelopes)) == t
    ensures var r := ApplyStep(hash, bg, t.replica, c);
            r.Ok? ==>
              Live(hash, bg, CommandsOf(t.envelopes + [r.value.envelope])) == Trace(r.value.next, t.envelopes + [r.value.envelope])
  {
    hide ApplyStep, ReplayStep;
    if ApplyStep(hash, bg, t.replica, c).Ok? {
      EnvelopeSays(hash, bg, t.replica, c);
      CommandsNext(t.envelopes, ApplyStep(hash, bg, t.replica, c).value.envelope);
      LiveNext(hash, bg, CommandsOf(t.envelopes), c);
    }
  }

  /** Round trip: whatever a live instance emitted, recovery accepts link by link, and ends in the same
      kernel, sequence and head. */
  lemma {:induction false} LiveReplays(hash: Hash, bg: Background, cmds: seq<CommandV>)
    ensures Recover(hash, bg, Live(hash, bg, cmds).envelopes) == Live(hash, bg, cmds)
  {
    hide ApplyStep, ReplayStep;
    if cmds != [] {
      var n := |cmds| - 1;
      var t := Live(hash, bg, cmds[..n]);
      LiveReplays(hash, bg, cmds[..n]);
      LiveNext(hash, bg, cmds[..n], cmds[n]);
      assert cmds[..n] + [cmds[n]] == cmds;
      match ApplyStep(hash, bg, t.replica, cmds[n])
      case Ok(applied) =>
        EnvelopeSays(hash, bg, t.replica, cmds[n]);
        ReplayIsApply(hash, bg, t.replica, applied.envelope);
        RecoverNext(hash, bg, t.envelopes, applied.envelope);
      case Err(_) =>
    }
  }

  /** Exactness: whatever recovery accepted, out of any links it was offered, is exactly what a live
      instance emits for those commands, and leaves exactly that live instance. */
  lemma {:induction false} RecoveryIsLive(hash: Hash, bg: Background, links: seq<Envelope>)
    ensures Live(hash, bg, CommandsOf(Recover(hash, bg, links).envelopes)) == Recover(hash, bg, links)
  {
    hide ApplyStep, ReplayStep;
    if links == [] {
      assert CommandsOf([]) == [];
    } else {
      var n := |links| - 1;
      var t := Recover(hash, bg, links[..n]);
      RecoveryIsLive(hash, bg, links[..n]);
      RecoverNext(hash, bg, links[..n], links[n]);
      assert links[..n] + [links[n]] == links;
      if ReplayStep(hash, bg, t.replica, links[n]).Ok? {
        ReplayIsApply(hash, bg, t.replica, links[n]);
        AcceptedNext(hash, bg, t, links[n].command);
      }
    }
  }

  /** Recovery never leaves the capacity profile either. */
  lemma RecoveryFits(hash: Hash, bg: Background, links: seq<Envelope>)
    ensures Capacity.StateOk(Recover(hash, bg, links).replica.kernel)
  {
    hide Capacity.StateOk, Live, Recover;
    RecoveryIsLive(hash, bg, links);
    LiveFits(hash, bg, CommandsOf(Recover(hash, bg, links).envelopes));
  }

  /** Every prefix of what a live instance emitted is what it had emitted at some earlier moment. */
  lemma {:induction false} PrefixMoment(hash: Hash, bg: Background, cmds: seq<CommandV>, k: nat) returns (j: nat)
    requires k <= |Live(hash, bg, cmds).envelopes|
    ensures j <= |cmds| && Live(hash, bg, cmds[..j]).envelopes == Live(hash, bg, cmds).envelopes[..k]
  {
    hide ApplyStep;
    var t := Live(hash, bg, cmds);
    if k == |t.envelopes| {
      j := |cmds|;
      assert cmds[..j] == cmds;
    } else {
      var n := |cmds| - 1;
      j := PrefixMoment(hash, bg, cmds[..n], k);
      assert cmds[..n][..j] == cmds[..j];
      assert t.envelopes[..k] == Live(hash, bg, cmds[..n]).envelopes[..k];
    }
  }

  ghost function LastDigest(hash: Hash, bg: Background, envelopes: seq<Envelope>): Digest {
    if envelopes == [] then hash(GenesisTranscript(bg)) else envelopes[|envelopes| - 1].digest
  }

  /** The number of envelopes is the sequence, and the last digest is the head. */
  lemma {:induction false} LiveCounts(hash: Hash, bg: Background, cmds: seq<CommandV>)
    ensures var t := Live(hash, bg, cmds);
            && t.replica.sequence as int == |t.envelopes|
            && t.replica.head == LastDigest(hash, bg, t.envelopes)
  {
    hide Capacity.Preflight, Step;
    if cmds != [] {
      var n := |cmds| - 1;
      LiveCounts(hash, bg, cmds[..n]);
    }
  }

  /** Every prefix of a live history finalizes at its own anchor, in the instance that had emitted it, and
      at no other anchor. */
  lemma PrefixFinalizes(hash: Hash, bg: Background, cmds: seq<CommandV>, k: nat, expected: Anchor) returns (j: nat)
    requires k <= |Live(hash, bg, cmds).envelopes|
    ensures j <= |cmds|
    ensures var envelopes := Live(hash, bg, cmds).envelopes;
            var r := Recover(hash, bg, envelopes[..k]).replica;
            && r == Live(hash, bg, cmds[..j]).replica
            && r.sequence as int == k && r.head == LastDigest(hash, bg, envelopes[..k])
            && (FinalizeStep(r, expected).Pass? <==> expected == AnchorOf(r.sequence, r.head))
  {
    hide Live, Recover, GenesisTranscript;
    j := PrefixMoment(hash, bg, cmds, k);
    LiveReplays(hash, bg, cmds[..j]);
    LiveCounts(hash, bg, cmds[..j]);
  }

  // ---- An instance is a run of the kernel ----

  ghost function KernelCommands(envelopes: seq<Envelope>): (cmds: seq<CommandK>)
    ensures |cmds| == |envelopes| && forall i | 0 <= i < |cmds| :: cmds[i] == CommandOf(envelopes[i].command)
  {
    seq(|envelopes|, i requires 0 <= i < |envelopes| => CommandOf(envelopes[i].command))
  }

  lemma KernelNext(bg: Background, envelopes: seq<Envelope>, e: Envelope)
    ensures Run(bg, KernelCommands(envelopes + [e])) == Exec(Run(bg, KernelCommands(envelopes)), bg, CommandOf(e.command))
  {
    hide Step, Run;
    assert KernelCommands(envelopes + [e]) == KernelCommands(envelopes) + [CommandOf(e.command)];
    RunNext(bg, KernelCommands(envelopes), CommandOf(e.command));
  }

  lemma AcceptedExec(hash: Hash, bg: Background, current: Replica, c: CommandV)
    requires ApplyStep(hash, bg, current, c).Ok?
    ensures ApplyStep(hash, bg, current, c).value.next.kernel == Exec(current.kernel, bg, CommandOf(c))
  {
    hide Capacity.Preflight, Step, LinkTranscript;
  }

  /** The kernel of a live instance is the kernel run over its accepted commands, so every property of
      all kernel runs holds of every live and of every recovered instance. */
  lemma {:induction false} LiveIsARun(hash: Hash, bg: Background, cmds: seq<CommandV>)
    ensures var t := Live(hash, bg, cmds);
            t.replica.kernel == Run(bg, KernelCommands(t.envelopes))
  {
    hide ApplyStep, Step;
    if cmds != [] {
      var n := |cmds| - 1;
      var t := Live(hash, bg, cmds[..n]);
      LiveIsARun(hash, bg, cmds[..n]);
      LiveNext(hash, bg, cmds[..n], cmds[n]);
      assert cmds[..n] + [cmds[n]] == cmds;
      match ApplyStep(hash, bg, t.replica, cmds[n])
      case Ok(applied) =>
        EnvelopeSays(hash, bg, t.replica, cmds[n]);
        AcceptedExec(hash, bg, t.replica, cmds[n]);
        KernelNext(bg, t.envelopes, applied.envelope);
      case Err(_) =>
    } else {
      assert KernelCommands([]) == [];
    }
  }

  lemma RecoveredInstanceIsSafe(hash: Hash, bg: Background, links: seq<Envelope>)
    requires bg.rootAgent == ROOT
    ensures Invariants.Inv(Recover(hash, bg, links).replica.kernel, bg)
  {
    hide Invariants.Inv, Live, Recover, Run;
    RecoveryIsLive(hash, bg, links);
    var cmds := CommandsOf(Recover(hash, bg, links).envelopes);
    LiveIsARun(hash, bg, cmds);
    Invariants.RunInv(bg, KernelCommands(Live(hash, bg, cmds).envelopes));
  }

  // ---- What a transcript forgets ----

  function AskFor(caps: seq<CapKind>): CommandV {
    Command.BeginInvocation([], [], [], Policy([], caps, Public, Untrusted, Untrusted, Public, Untrusted, [], []), [], [], false)
  }

  /** The order and the repetitions of the lists of an admission leave no trace in its link. */
  lemma ListsAreForgotten(p: Digest, n: U64, a: Action, caps: seq<CapKind>, same: seq<CapKind>)
    requires AsSet(caps) == AsSet(same)
    ensures LinkTranscript(p, n, CommandOf(AskFor(caps)), a) == LinkTranscript(p, n, CommandOf(AskFor(same)), a)
    ensures AskFor(caps) == AskFor(same) <==> caps == same
  {
    hide LinkTranscript;
    assert AskFor(caps).policy.requiredCaps == caps && AskFor(same).policy.requiredCaps == same;
  }

  // ---- What a live instance emits is chained ----

  lemma CommandIsShort(c: CommandV)
    requires Capacity.CommandFits(c)
    ensures ShortTexts(CommandTexts(CommandOf(c)))
  {
    assert CommandTexts(CommandOf(c)) == CommandTexts(c);
  }

  /** Every text of an action is one of its command, except the owner a settlement reports. */
  lemma ActionTextsFrom(s: State, bg: Background, c: CommandK, t: Text)
    requires Step(s, bg, c).Accepted? && t in ActionTexts(Step(s, bg, c).action)
    ensures t in CommandTexts(c) || (c.SettleInvocation? && c.inv in s.pending && t == s.pending[c.inv].agent)
  {
    hide Step, CommandTexts, ActionTexts;
    if CommandTag(c) <= 6 {
      PlainActionTextsFrom(s, bg, c, t);
    } else if c.SettleInvocation? {
      SettledTextsFrom(s, bg, c, t);
    } else if c.BeginInvocation? {
      BeganTextsFrom(s, bg, c, t);
    } else {
      OtherActionTextsFrom(s, bg, c, t);
    }
  }

  lemma SettledTextsFrom(s: State, bg: Background, c: CommandK, t: Text)
    requires Step(s, bg, c).Accepted? && t in ActionTexts(Step(s, bg, c).action) && c.SettleInvocation?
    ensures t in CommandTexts(c) || (c.inv in s.pending && t == s.pending[c.inv].agent)
  {
    hide Demote, Extend;
  }

  lemma BeganTextsFrom(s: State, bg: Background, c: CommandK, t: Text)
    requires Step(s, bg, c).Accepted? && t in ActionTexts(Step(s, bg, c).action) && c.BeginInvocation?
    ensures t in CommandTexts(c)
  {
    hide VerdictOf, DenialOf, BeginNext;
  }

  lemma OtherActionTextsFrom(s: State, bg: Background, c: CommandK, t: Text)
    requires Step(s, bg, c).Accepted? && t in ActionTexts(Step(s, bg, c).action)
    requires c.Ingest? || c.AuthorizeInspected? || c.CrossOutput?
    ensures t in CommandTexts(c)
  {
    hide Gate, Release, Holds, Spec.EndorsedOk, WithinBounds;
  }

  lemma PlainActionTextsFrom(s: State, bg: Background, c: CommandK, t: Text)
    requires Step(s, bg, c).Accepted? && t in ActionTexts(Step(s, bg, c).action) && CommandTag(c) <= 6
    ensures t in CommandTexts(c)
  {
    hide Clear;
  }

  lemma ActionIsShort(s: State, bg: Background, sequence: U64, c: CommandV)
    requires Capacity.Preflight(s, sequence, c).Pass? && Step(s, bg, CommandOf(c)).Accepted?
    ensures ShortTexts(ActionTexts(Step(s, bg, CommandOf(c)).action))
  {
    hide Step, Capacity.StateOk, Capacity.PostFits, Capacity.CommandFits, CommandTexts, ActionTexts;
    CommandIsShort(c);
    forall t | t in ActionTexts(Step(s, bg, CommandOf(c)).action) ensures |t| < TWO_TO_THE_32 {
      ActionTextsFrom(s, bg, CommandOf(c), t);
      if t !in CommandTexts(CommandOf(c)) {
        OwnerIsShort(s, c.inv);
      }
    }
  }

  lemma OwnerIsShort(s: State, inv: InvocationId)
    requires Capacity.StateOk(s) && inv in s.pending
    ensures |s.pending[inv].agent| < TWO_TO_THE_32
  {
    var t := s.pending[inv].agent;
    assert Capacity.PendingTexts(inv, s.pending[inv])[1] == t;
    Capacity.RetainedTextsAreSmall(s, t);
  }

  ghost predicate ShortEnvelope(e: Envelope) {
    ShortTexts(CommandTexts(CommandOf(e.command))) && ShortTexts(ActionTexts(e.action))
  }

  ghost function TranscriptOf(e: Envelope): seq<Byte> {
    LinkTranscript(e.previous, e.sequence, CommandOf(e.command), e.action)
  }

  ghost function NodeOf(e: Envelope): Node {
    Node(e.previous, TranscriptOf(e), e.digest)
  }

  ghost function Nodes(envelopes: seq<Envelope>): (nodes: seq<Node>)
    ensures |nodes| == |envelopes| && forall i | 0 <= i < |nodes| :: nodes[i] == NodeOf(envelopes[i])
  {
    seq(|envelopes|, i requires 0 <= i < |envelopes| => NodeOf(envelopes[i]))
  }

  ghost predicate ShortEnvelopes(envelopes: seq<Envelope>) {
    forall e | e in envelopes :: ShortEnvelope(e)
  }

  lemma EmittedIsChained(hash: Hash, bg: Background, current: Replica, c: CommandV)
    requires ApplyStep(hash, bg, current, c).Ok?
    ensures var e := ApplyStep(hash, bg, current, c).value.envelope;
            ShortEnvelope(e) && e.previous == current.head && e.digest == hash(TranscriptOf(e))
  {
    hide Capacity.StateOk, Capacity.PostFits, Capacity.CommandFits, Step, LinkTranscript, CommandTexts, ActionTexts;
    var r := Step(current.kernel, bg, CommandOf(c));
    CommandIsShort(c);
    ActionIsShort(current.kernel, bg, current.sequence, c);
  }

  lemma ChainedNext(hash: Hash, g: seq<Byte>, nodes: seq<Node>, n: Node)
    requires Chained(hash, g, nodes) && n.previous == HeadOf(hash, g, nodes) && n.digest == hash(n.transcript)
    ensures Chained(hash, g, nodes + [n])
  {
    assert (nodes + [n])[..|nodes|] == nodes;
  }

  /** The envelopes are short and chained from the genesis transcript to the head. */
  ghost predicate ChainedTrace(hash: Hash, genesis: seq<Byte>, t: Trace) {
    && ShortEnvelopes(t.envelopes)
    && Chained(hash, genesis, Nodes(t.envelopes))
    && HeadOf(hash, genesis, Nodes(t.envelopes)) == t.replica.head
  }

  lemma TraceGrows(hash: Hash, genesis: seq<Byte>, t: Trace, e: Envelope, next: Replica)
    requires ChainedTrace(hash, genesis, t)
    requires ShortEnvelope(e) && e.previous == t.replica.head && e.digest == hash(TranscriptOf(e)) && next.head == e.digest
    ensures ChainedTrace(hash, genesis, Trace(next, t.envelopes + [e]))
  {
    hide TranscriptOf, Chained;
    ChainedNext(hash, genesis, Nodes(t.envelopes), NodeOf(e));
    assert Nodes(t.envelopes + [e]) == Nodes(t.envelopes) + [NodeOf(e)];
  }

  lemma LiveTraceGrows(hash: Hash, bg: Background, genesis: seq<Byte>, t: Trace, c: CommandV)
    requires ChainedTrace(hash, genesis, t) && ApplyStep(hash, bg, t.replica, c).Ok?
    ensures var a := ApplyStep(hash, bg, t.replica, c).value;
            ChainedTrace(hash, genesis, Trace(a.next, t.envelopes + [a.envelope]))
  {
    hide ApplyStep, ChainedTrace, TranscriptOf;
    var a := ApplyStep(hash, bg, t.replica, c).value;
    EnvelopeSays(hash, bg, t.replica, c);
    EmittedIsChained(hash, bg, t.replica, c);
    TraceGrows(hash, genesis, t, a.envelope, a.next);
  }

  /** Every live history is a hash chain from the genesis transcript of its background. */
  lemma {:induction false} LiveIsChained(hash: Hash, bg: Background, genesis: seq<Byte>, cmds: seq<CommandV>)
    requires genesis == GenesisTranscript(bg)
    ensures ChainedTrace(hash, genesis, Live(hash, bg, cmds))
  {
    hide ApplyStep, ChainedTrace, GenesisTranscript;
    if cmds == [] {
      OriginIsChained(hash, bg);
    } else {
      var n := |cmds| - 1;
      var t := Live(hash, bg, cmds[..n]);
      LiveIsChained(hash, bg, genesis, cmds[..n]);
      if ApplyStep(hash, bg, t.replica, cmds[n]).Ok? {
        LiveTraceGrows(hash, bg, genesis, t, cmds[n]);
      }
    }
  }

  lemma OriginIsChained(hash: Hash, bg: Background)
    ensures ChainedTrace(hash, GenesisTranscript(bg), Trace(Origin(hash, bg), []))
  {
    hide GenesisTranscript;
    assert Nodes([]) == [];
  }

  // ---- One anchor determines the whole history ----

  /** The same link, up to order and duplicates in the three lists of its command. */
  ghost predicate SameLink(e: Envelope, f: Envelope) {
    && e.sequence == f.sequence && e.previous == f.previous && e.digest == f.digest
    && CommandOf(e.command) == CommandOf(f.command) && e.action == f.action
  }

  ghost predicate SameHistory(bg: Background, es: seq<Envelope>, bh: Background, fs: seq<Envelope>) {
    && bg.mode == bh.mode && bg.allowCeiling == bh.allowCeiling && bg.inspectCeiling == bh.inspectCeiling
    && |es| == |fs|
    && forall i | 0 <= i < |es| :: SameLink(es[i], fs[i])
  }

  lemma SameTranscript(e: Envelope, f: Envelope)
    requires ShortEnvelope(e) && ShortEnvelope(f) && TranscriptOf(e) == TranscriptOf(f)
    ensures e.previous == f.previous && (e.digest == f.digest ==> SameLink(e, f))
  {
    LinkInjective(e.previous, e.sequence, CommandOf(e.command), e.action, f.previous, f.sequence, CommandOf(f.command), f.action);
  }

  /** Transcripts of short envelopes can be read back, so the general theorem applies. */
  lemma HistoriesAreReadable(bg: Background, es: seq<Envelope>, bh: Background, fs: seq<Envelope>)
    requires ShortEnvelopes(es) && ShortEnvelopes(fs)
    ensures Readable(GenesisTranscript(bg), Nodes(es), GenesisTranscript(bh), Nodes(fs))
  {
    hide GenesisTranscript, LinkTranscript;
    forall n, m | n in Nodes(es) && m in Nodes(fs) && n.transcript == m.transcript ensures n.previous == m.previous {
      var i :| 0 <= i < |es| && Nodes(es)[i] == n;
      var k :| 0 <= k < |fs| && Nodes(fs)[k] == m;
      assert es[i] in es && fs[k] in fs;
      SameTranscript(es[i], fs[k]);
    }
    forall n | n in Nodes(es) ensures n.transcript != GenesisTranscript(bh) {
      var i :| 0 <= i < |es| && Nodes(es)[i] == n;
      GenesisIsNoLink(bh, es[i].previous, es[i].sequence, CommandOf(es[i].command), es[i].action);
    }
    forall m | m in Nodes(fs) ensures m.transcript != GenesisTranscript(bg) {
      var k :| 0 <= k < |fs| && Nodes(fs)[k] == m;
      GenesisIsNoLink(bg, fs[k].previous, fs[k].sequence, CommandOf(fs[k].command), fs[k].action);
    }
  }

  lemma SameNodes(bg: Background, es: seq<Envelope>, bh: Background, fs: seq<Envelope>)
    requires ShortEnvelopes(es) && ShortEnvelopes(fs)
    requires GenesisTranscript(bg) == GenesisTranscript(bh) && Nodes(es) == Nodes(fs)
    ensures SameHistory(bg, es, bh, fs)
  {
    GenesisInjective(bg, bh);
    forall i | 0 <= i < |es| ensures SameLink(es[i], fs[i]) {
      assert Nodes(es)[i] == Nodes(fs)[i] && es[i] in es && fs[i] in fs;
      SameTranscript(es[i], fs[i]);
    }
  }

  /** One head determines the mode, the ceilings and every accepted link of two live histories, whatever
      their lengths, unless the two of them hashed two different transcripts to one digest. */
  lemma AnchorDeterminesHistory(hash: Hash, bg: Background, cmds: seq<CommandV>, bh: Background, cmds': seq<CommandV>) returns (same: bool)
    requires Live(hash, bg, cmds).replica.head == Live(hash, bh, cmds').replica.head
    ensures var es, fs := Live(hash, bg, cmds).envelopes, Live(hash, bh, cmds').envelopes;
            if same then SameHistory(bg, es, bh, fs)
            else Collision(hash, GenesisTranscript(bg), Nodes(es), GenesisTranscript(bh), Nodes(fs))
  {
    hide Live, GenesisTranscript, SameHistory, Collision, Readable;
    var es, fs := Live(hash, bg, cmds).envelopes, Live(hash, bh, cmds').envelopes;
    LiveIsChained(hash, bg, GenesisTranscript(bg), cmds);
    LiveIsChained(hash, bh, GenesisTranscript(bh), cmds');
    HistoriesAreReadable(bg, es, bh, fs);
    same := HeadDetermines(hash, GenesisTranscript(bg), Nodes(es), GenesisTranscript(bh), Nodes(fs));
    if same {
      SameNodes(bg, es, bh, fs);
    }
  }

  /** The same history leaves the same kernel. */
  lemma SameHistorySameKernel(hash: Hash, bg: Background, cmds: seq<CommandV>, bh: Background, cmds': seq<CommandV>)
    requires bg.rootAgent == bh.rootAgent
    requires SameHistory(bg, Live(hash, bg, cmds).envelopes, bh, Live(hash, bh, cmds').envelopes)
    ensures Live(hash, bg, cmds).replica.kernel == Live(hash, bh, cmds').replica.kernel
  {
    hide Live, Run;
    var es, fs := Live(hash, bg, cmds).envelopes, Live(hash, bh, cmds').envelopes;
    LiveIsARun(hash, bg, cmds);
    LiveIsARun(hash, bh, cmds');
    assert KernelCommands(es) == KernelCommands(fs);
  }

  /** A recovery that finalizes at the anchor of a live instance has rebuilt that instance's kernel, whatever
      links it was offered, unless two different transcripts of the two histories share a digest. */
  lemma AnchoredRecovery(hash: Hash, bg: Background, cmds: seq<CommandV>, links: seq<Envelope>) returns (same: bool)
    requires FinalizeStep(Recover(hash, bg, links).replica,
                          AnchorOf(Live(hash, bg, cmds).replica.sequence, Live(hash, bg, cmds).replica.head)).Pass?
    ensures var es, fs := Live(hash, bg, cmds).envelopes, Recover(hash, bg, links).envelopes;
            if same then Recover(hash, bg, links).replica == Live(hash, bg, cmds).replica && SameHistory(bg, es, bg, fs)
            else Collision(hash, GenesisTranscript(bg), Nodes(es), GenesisTranscript(bg), Nodes(fs))
  {
    hide Live, Recover, GenesisTranscript, SameHistory, Collision;
    var accepted := CommandsOf(Recover(hash, bg, links).envelopes);
    RecoveryIsLive(hash, bg, links);
    same := AnchorDeterminesHistory(hash, bg, cmds, bg, accepted);
    if same {
      SameHistorySameKernel(hash, bg, cmds, bg, accepted);
    }
  }
}
