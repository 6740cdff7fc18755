/**
  The live and the recovery instance: guarded slots that hold an instance state, the shared apply that
  computes without committing, and the commits. Each method is proved to do exactly what the abstract
  instance does.
*/
module Instances {
  import opened Types
  import opened Kernel
  import opened HashChains
  import opened Chain
  import opened Transcripts
  import H = History
  import P = Projections
  import S = Spec
  import Capacity
  import Limits
  import Transitions

  /** The kernel object belongs to the state that holds it; a clone of the state clones it. */
  datatype InstanceState = InstanceState(kernel: KernelState, sequence: U64, head: Digest)

  ghost function View(i: InstanceState): H.Replica
    reads i.kernel
  {
    H.Replica(i.kernel.View(), i.sequence, i.head)
  }

  method InitialState(hash: Hash, background: Background) returns (i: InstanceState)
    ensures fresh(i.kernel) && i.kernel.Valid() && View(i) == H.Origin(hash, background)
  {
    var kernel := new KernelState.Initial();
    var head := Genesis(hash, background);
    i := InstanceState(kernel, 0, head);
  }

  datatype AppliedState = AppliedState(next: InstanceState, envelope: H.Envelope)

  ghost function AppliedView(a: AppliedState): H.Applied
    reads a.next.kernel
  {
    H.Applied(View(a.next), a.envelope)
  }

  /** What the abstract instance answers, read off a concrete answer. */
  ghost predicate Agrees(r: Result<AppliedState, Error>, expected: Result<H.Applied, Error>)
    reads if r.Ok? then {r.value.next.kernel} else {}
  {
    match r
    case Ok(a) => expected == Ok(AppliedView(a))
    case Err(e) => expected == Err(e)
  }

  datatype Advanced = Advanced(kernel: KernelState, action: Action)

  /** The transition on a clone of the kernel. */
  method Advance(background: Background, kernel: KernelState, c: CommandV) returns (r: Result<Advanced, Error>)
    requires kernel.Valid()
    ensures r.Ok? ==> fresh(r.value.kernel) && r.value.kernel.Valid()
    ensures match S.Step(kernel.View(), background, Transitions.CommandOf(c))
            case Refused(cause) => r == Err(KernelRefusal(cause))
            case Accepted(next, action) => r.Ok? && r.value.kernel.View() == next && r.value.action == action
  {
    hide S.Step;
    var next := new KernelState.Clone(kernel);
    var outcome := Transitions.Apply(next, background, c);
    if outcome.Err? {
      return Err(KernelRefusal(outcome.error));
    }
    return Ok(Advanced(next, outcome.value));
  }

  /** The envelope and the state that follow an accepted transition. */
  method SealState(hash: Hash, current: InstanceState, c: CommandV, advanced: Advanced) returns (a: AppliedState)
    requires current.kernel.Valid() && Capacity.SequenceLeft(current.sequence)
    ensures a.next.kernel == advanced.kernel
    ensures AppliedView(a) == H.Seal(hash, View(current), c, advanced.kernel.View(), advanced.action)
  {
    var sequence := current.sequence + 1;
    var digest := Link(hash, current.head, sequence, c, advanced.action);
    var envelope := H.Envelope(VERSION, sequence, current.head, digest, c, advanced.action);
    a := AppliedState(InstanceState(advanced.kernel, sequence, digest), envelope);
  }

  /** Preflight, then the transition on a clone, then the link digest. The current state is only read. */
  method ApplyWithoutCommit(hash: Hash, background: Background, current: InstanceState, c: CommandV)
    returns (r: Result<AppliedState, Error>)
    requires current.kernel.Valid()
    ensures r.Ok? ==> fresh(r.value.next.kernel) && r.value.next.kernel.Valid()
    ensures Agrees(r, H.ApplyStep(hash, background, View(current), c))
  {
    hide Capacity.StateOk, Capacity.CommandFits, Capacity.PostFits, S.Step, H.Seal;
    var check := Limits.Preflight(current.kernel, current.sequence, c);
    if check.Fail? {
      return Err(check.error);
    }
    var advanced := Advance(background, current.kernel, c);
    if advanced.Err? {
      return Err(advanced.error);
    }
    var applied := SealState(hash, current, c, advanced.value);
    return Ok(applied);
  }

  class LiveInstance {
    const hash: Hash
    const background: Background
    var inner: InstanceState

    ghost predicate Valid()
      reads this, inner.kernel
    {
      inner.kernel.Valid()
    }

    ghost function State(): H.Replica
      reads this, inner.kernel
    {
      View(inner)
    }

    constructor (hash: Hash, background: Background)
      ensures Valid() && fresh(inner.kernel)
      ensures this.hash == hash && this.background == background && State() == H.Origin(hash, background)
    {
      var i := InitialState(hash, background);
      this.hash := hash;
      this.background := background;
      inner := i;
    }

    constructor FromState(hash: Hash, background: Background, state: InstanceState)
      requires state.kernel.Valid()
      ensures Valid() && inner == state && this.hash == hash && this.background == background
    {
      this.hash := hash;
      this.background := background;
      inner := state;
    }

    method Status() returns (status: H.Anchor)
      requires Valid()
      ensures status == H.AnchorOf(State().sequence, State().head)
    {
      status := H.Anchor(VERSION, inner.sequence, inner.head);
    }

    /** The sorted projection of the kernel, refused only outside the capacity profile. */
    method Observe() returns (r: Result<P.Projection, Error>)
      requires Valid()
      ensures match r
              case Ok(p) => Capacity.StateOk(State().kernel) && P.Projects(p, State().kernel)
              case Err(e) => !Capacity.StateOk(State().kernel) && e == CapacityExceeded
    {
      var check := Limits.CheckState(inner.kernel);
      if check.Fail? {
        return Err(check.error);
      }
      var p := P.FromKernel(inner.kernel);
      return Ok(p);
    }

    /** An accepted command commits its next state; a refused one leaves everything as it was. */
    method Apply(c: CommandV) returns (r: Result<H.Envelope, Error>)
      requires Valid()
      modifies this
      ensures Valid()
      ensures match H.ApplyStep(hash, background, old(State()), c)
              case Ok(applied) => r == Ok(applied.envelope) && State() == applied.next
              case Err(e) => r == Err(e) && inner == old(inner) && State() == old(State())
    {
      hide H.ApplyStep;
      var applied := ApplyWithoutCommit(hash, background, inner, c);
      if applied.Err? {
        return Err(applied.error);
      }
      inner := applied.value.next;
      return Ok(applied.value.envelope);
    }
  }

  class RecoveryInstance {
    const hash: Hash
    const background: Background
    var slot: Option<InstanceState>

    ghost predicate Valid()
      reads this, if slot.Some? then {slot.value.kernel} else {}
    {
      slot.Some? ==> slot.value.kernel.Valid()
    }

    /** The instance rebuilt so far; none once it has been finalized. */
    ghost function State(): Option<H.Replica>
      reads this, if slot.Some? then {slot.value.kernel} else {}
    {
      if slot.Some? then Some(View(slot.value)) else None
    }

    constructor (hash: Hash, background: Background)
      ensures Valid() && slot.Some? && fresh(slot.value.kernel)
      ensures this.hash == hash && this.background == background && State() == Some(H.Origin(hash, background))
    {
      var i := InitialState(hash, background);
      this.hash := hash;
      this.background := background;
      slot := Some(i);
    }

    /** A recorded link advances the slot only if it is recomputed exactly; any other leaves it untouched. */
    method Replay(recorded: H.Envelope) returns (r: Check)
      requires Valid()
      modifies this
      ensures Valid()
      ensures old(State()).None? ==> r == Fail(RecoveryConsumed) && slot == old(slot)
      ensures old(State()).Some? ==>
                match H.ReplayStep(hash, background, old(State()).value, recorded)
                case Ok(next) => r == Pass && State() == Some(next)
                case Err(e) => r == Fail(e) && slot == old(slot) && State() == old(State())
    {
      hide H.ApplyStep, Capacity.StateOk;
      if slot.None? {
        return Fail(RecoveryConsumed);
      }
      var current := slot.value;
      :- Limits.CheckRecoveryLink(current.kernel, current.sequence);
      if recorded.version != VERSION {
        return Fail(InvalidVersion);
      }
      if recorded.sequence != current.sequence + 1 {
        return Fail(SequenceMismatch);
      }
      if recorded.previous != current.head {
        return Fail(PreviousDigestMismatch);
      }
      var applied := ApplyWithoutCommit(hash, background, current, recorded.command);
      if applied.Err? {
        return Fail(if applied.error.KernelRefusal? then ReplayRefused(applied.error.cause) else applied.error);
      }
      if applied.value.envelope.action != recorded.action {
        return Fail(ActionMismatch);
      }
      if applied.value.envelope.digest != recorded.digest {
        return Fail(DigestMismatch);
      }
      slot := Some(applied.value.next);
      return Pass;
    }

    /** At its own anchor, and only there, the rebuilt state moves into a live instance; the slot stays empty. */
    method Finalize(expected: H.Anchor) returns (r: Check, live: LiveInstance?)
      requires Valid()
      modifies this
      ensures Valid()
      ensures old(State()).None? ==> r == Fail(RecoveryConsumed) && slot == old(slot)
      ensures old(State()).Some? ==> r == H.FinalizeStep(old(State()).value, expected)
      ensures r.Pass? ==>
                && old(State()).Some? && State().None?
                && live != null && live.Valid() && live.hash == hash && live.background == background
                && live.State() == old(State()).value
      ensures r.Fail? ==> live == null && slot == old(slot) && State() == old(State())
    {
      live := null;
      if slot.None? {
        return Fail(RecoveryConsumed), null;
      }
      var current := slot.value;
      if expected.version != VERSION {
        return Fail(InvalidVersion), null;
      }
      if expected.sequence != current.sequence || expected.head != current.head {
        return Fail(FinalAnchorMismatch), null;
      }
      slot := None;
      live := new LiveInstance.FromState(hash, background, current);
      r := Pass;
    }
  }

  /** One more command of a live session. */
  method StepLive(live: LiveInstance, ghost cmds: seq<CommandV>, c: CommandV, envelopes: seq<H.Envelope>)
    returns (after: seq<H.Envelope>)
    requires live.Valid() && H.Trace(live.State(), envelopes) == H.Live(live.hash, live.background, cmds)
    modifies live
    ensures live.Valid() && H.Trace(live.State(), after) == H.Live(live.hash, live.background, cmds + [c])
  {
    hide H.Live, H.ApplyStep;
    H.LiveNext(live.hash, live.background, cmds, c);
    var r := live.Apply(c);
    after := if r.Ok? then envelopes + [r.value] else envelopes;
  }

  /** All commands of a live session. */
  method RunCommands(live: LiveInstance, cmds: seq<CommandV>) returns (envelopes: seq<H.Envelope>)
    requires live.Valid() && live.State() == H.Origin(live.hash, live.background)
    modifies live
    ensures live.Valid() && H.Trace(live.State(), envelopes) == H.Live(live.hash, live.background, cmds)
  {
    hide H.Live, H.ApplyStep, LiveInstance.Valid, LiveInstance.State;
    H.NothingYet(live.hash, live.background);
    envelopes := [];
    var i := 0;
    assert cmds[..i] == [];
    while i < |cmds|
      invariant 0 <= i <= |cmds| && live.Valid()
      invariant H.Trace(live.State(), envelopes) == H.Live(live.hash, live.background, cmds[..i])
    {
      assert cmds[..i + 1] == cmds[..i] + [cmds[i]];
      envelopes := StepLive(live, cmds[..i], cmds[i], envelopes);
      i := i + 1;
    }
    assert cmds[..i] == cmds;
  }

  /** A whole live session: the instance reaches the state and emits the envelopes of the abstract run, and
      its state can be observed. */
  method RunLive(live: LiveInstance, cmds: seq<CommandV>)
    returns (envelopes: seq<H.Envelope>, observed: Result<P.Projection, Error>)
    requires live.Valid() && live.State() == H.Origin(live.hash, live.background)
    modifies live
    ensures live.Valid()
    ensures H.Trace(live.State(), envelopes) == H.Live(live.hash, live.background, cmds)
    ensures observed.Ok?
  {
    hide H.Live, H.ApplyStep, Capacity.StateOk;
    envelopes := RunCommands(live, cmds);
    H.LiveFits(live.hash, live.background, cmds);
    observed := live.Observe();
  }

  /** One more link offered to a recovery. */
  method StepRecovery(recovery: RecoveryInstance, ghost links: seq<H.Envelope>, e: H.Envelope, accepted: seq<H.Envelope>)
    returns (after: seq<H.Envelope>)
    requires recovery.Valid() && recovery.State().Some?
    requires H.Trace(recovery.State().value, accepted) == H.Recover(recovery.hash, recovery.background, links)
    modifies recovery
    ensures recovery.Valid() && recovery.State().Some?
    ensures H.Trace(recovery.State().value, after) == H.Recover(recovery.hash, recovery.background, links + [e])
  {
    hide H.Recover, H.ReplayStep;
    H.RecoverNext(recovery.hash, recovery.background, links, e);
    var r := recovery.Replay(e);
    after := if r.Pass? then accepted + [e] else accepted;
  }

  /** A whole recovery, the links offered in order: what is rejected on the way is skipped. */
  method RunRecovery(recovery: RecoveryInstance, links: seq<H.Envelope>) returns (accepted: seq<H.Envelope>)
    requires recovery.Valid() && recovery.State() == Some(H.Origin(recovery.hash, recovery.background))
    modifies recovery
    ensures recovery.Valid() && recovery.State().Some?
    ensures H.Trace(recovery.State().value, accepted) == H.Recover(recovery.hash, recovery.background, links)
  {
    hide H.Recover, H.ReplayStep, H.ApplyStep, RecoveryInstance.Valid, RecoveryInstance.State;
    H.NothingYet(recovery.hash, recovery.background);
    accepted := [];
    var i := 0;
    assert links[..i] == [];
    while i < |links|
      invariant 0 <= i <= |links| && recovery.Valid() && recovery.State().Some?
      invariant H.Trace(recovery.State().value, accepted) == H.Recover(recovery.hash, recovery.background, links[..i])
    {
      assert links[..i + 1] == links[..i] + [links[i]];
      accepted := StepRecovery(recovery, links[..i], links[i], accepted);
      i := i + 1;
    }
    assert links[..i] == links;
  }

  /** Round trip: replaying everything a session emitted, and finalizing at its status, always succeeds and
      yields an instance with the session's kernel, sequence and head. */
  method RoundTrip(hash: Hash, bg: Background, cmds: seq<CommandV>) returns (live: LiveInstance, recovered: LiveInstance?)
    ensures live.Valid() && recovered != null && recovered.Valid()
    ensures live.State() == H.Live(hash, bg, cmds).replica
    ensures recovered.State() == live.State()
  {
    hide H.Live, H.Recover, H.ApplyStep, GenesisTranscript;
    live := new LiveInstance(hash, bg);
    var envelopes, observed := RunLive(live, cmds);
    var status := live.Status();
    var recovery := new RecoveryInstance(hash, bg);
    var accepted := RunRecovery(recovery, envelopes);
    H.LiveReplays(hash, bg, cmds);
    var r;
    r, recovered := recovery.Finalize(status);
  }

  /** Order independence: kernels that agree as maps and sets, given commands that agree with their lists
      read as sets, give one reply, and their projections stay equal. */
  method ApplyToAgreeing(s: KernelState, t: KernelState, bg: Background, c: CommandV, d: CommandV)
    returns (r: Result<Action, KernelError>, q: Result<Action, KernelError>, ps: P.Projection, pt: P.Projection)
    requires s != t && s.Valid() && t.Valid() && s.View() == t.View()
    requires Transitions.CommandOf(c) == Transitions.CommandOf(d)
    modifies s, t
    ensures s.Valid() && t.Valid() && s.View() == t.View()
    ensures r == q && ps == pt
  {
    hide S.Step, P.Projects;
    r := Transitions.Apply(s, bg, c);
    q := Transitions.Apply(t, bg, d);
    ps := P.FromKernel(s);
    pt := P.FromKernel(t);
    P.ProjectionsAgree(ps, s.View(), pt, t.View());
  }
}
