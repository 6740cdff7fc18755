/**
  The agent tree over whole runs: acyclicity, attachment to the root, capability ancestry, clean
  revocation, and how a cascade of revocations drains exactly the detached agents.
*/
module Forest {
  import opened Types
  import opened Spec
  import opened Invariants

  /** `path` climbs parent edges from its first agent to its last. */
  ghost predicate Climbs(s: State, path: seq<AgentId>) {
    && path != []
    && forall k | 0 <= k < |path| - 1 :: path[k] in s.parent && s.parent[path[k]] == path[k + 1]
  }

  ghost predicate ClimbsActive(s: State, path: seq<AgentId>) {
    Climbs(s, path) && forall k | 0 <= k < |path| :: path[k] in s.active
  }

  /** A chain of active agents leads from `a` to the root. */
  ghost predicate Attached(s: State, a: AgentId) {
    exists path :: AttachedBy(s, a, path)
  }

  ghost predicate AttachedBy(s: State, a: AgentId, path: seq<AgentId>) {
    ClimbsActive(s, path) && path[0] == a && path[|path| - 1] == ROOT
  }

  // ---- Shape ----

  /** Climbing at least one edge never returns to the start. */
  lemma RunNoCycle(bg: Background, cmds: seq<CommandK>, path: seq<AgentId>)
    requires bg.rootAgent == ROOT
    requires Climbs(Run(bg, cmds), path) && |path| >= 2
    ensures path[0] != path[|path| - 1]
  {
    hide CapTree, Clean, Admitted, Evidenced, HeldConfined, PairConfined, Run;
    var s := Run(bg, cmds);
    RunInv(bg, cmds);
    var group := set k | 0 <= k < |path| - 1 :: path[k];
    assert path[0] in group;
    assert group <= s.parent.Keys;
    var c :| c in group && s.parent[c] !in group;
    var k :| 0 <= k < |path| - 1 && path[k] == c;
    assert path[k + 1] !in group;
  }

  /** Every active agent except root has exactly one edge, and only active agents have one. */
  lemma RunOneParent(bg: Background, cmds: seq<CommandK>, a: AgentId)
    requires bg.rootAgent == ROOT
    ensures a in Run(bg, cmds).parent <==> a in Run(bg, cmds).active && a != ROOT
    ensures ROOT in Run(bg, cmds).active
  {
    RunInv(bg, cmds);
  }

  // ---- Capabilities ----

  lemma {:induction false} PathCaps(s: State, path: seq<AgentId>)
    requires CapTree(s) && ClimbsActive(s, path)
    ensures Of(s.caps, path[0]) <= Of(s.caps, path[|path| - 1])
  {
    if |path| > 1 {
      assert s.parent[path[0]] == path[1];
      assert ClimbsActive(s, path[1..]) by {
        forall k | 0 <= k < |path| - 2
          ensures path[1..][k] in s.parent && s.parent[path[1..][k]] == path[1..][k + 1]
        {
          assert path[1..][k] == path[k + 1];
        }
      }
      PathCaps(s, path[1..]);
    }
  }

  /** What an agent may do, every ancestor reached through active agents may do; root may do
      everything. */
  lemma RunCapabilityAncestry(bg: Background, cmds: seq<CommandK>, path: seq<AgentId>)
    requires bg.rootAgent == ROOT && ClimbsActive(Run(bg, cmds), path)
    ensures Of(Run(bg, cmds).caps, path[0]) <= Of(Run(bg, cmds).caps, path[|path| - 1])
    ensures forall c: CapKind :: c in Of(Run(bg, cmds).caps, ROOT)
  {
    RunInv(bg, cmds);
    PathCaps(Run(bg, cmds), path);
  }

  /** An inactive agent has no capability, label, record, challenge or grant. */
  lemma RunRevocationClean(bg: Background, cmds: seq<CommandK>, a: AgentId)
    requires bg.rootAgent == ROOT && a !in Run(bg, cmds).active
    ensures var s := Run(bg, cmds);
            && Of(s.caps, a) == {} && Of(s.taint, a) == {} && Of(s.integ, a) == {}
            && (forall i | i in s.pending :: s.pending[i].agent != a)
            && (forall i | i in s.challenges :: s.challenges[i].agent != a)
            && (forall d :: CrossingKey(a, d) !in s.grants)
  {
    RunInv(bg, cmds);
  }

  // ---- Attachment ----

  lemma AttachedChild(s: State, a: AgentId)
    requires a in s.active && a in s.parent && Attached(s, s.parent[a])
    ensures Attached(s, a)
  {
    var path :| AttachedBy(s, s.parent[a], path);
    var longer := [a] + path;
    forall k | 0 <= k < |longer| - 1
      ensures longer[k] in s.parent && s.parent[longer[k]] == longer[k + 1]
    {
      if k > 0 {
        assert longer[k] == path[k - 1] && longer[k + 1] == path[k];
      }
    }
    assert AttachedBy(s, a, longer);
  }

  lemma AttachedParent(s: State, a: AgentId)
    requires a != ROOT && Attached(s, a)
    ensures a in s.active && a in s.parent && s.parent[a] in s.active && Attached(s, s.parent[a])
  {
    var path :| AttachedBy(s, a, path);
    assert s.parent[path[0]] == path[1];
    var shorter := path[1..];
    forall k | 0 <= k < |shorter| - 1
      ensures shorter[k] in s.parent && s.parent[shorter[k]] == shorter[k + 1]
    {
      assert shorter[k] == path[k + 1] && shorter[k + 1] == path[k + 2];
    }
    assert AttachedBy(s, s.parent[a], shorter);
  }

  /** The middle of a line of three is revoked: root, `a` below it and `b` below `a`. */
  ghost function RevokedMiddle(a: AgentId, b: AgentId): seq<CommandK> {
    [Delegate(ROOT, a)] + [Delegate(a, b)] + [Revoke(ROOT, a)]
  }

  lemma LeafAdded(s: State, bg: Background, grantor: AgentId, leaf: AgentId)
    requires bg.rootAgent == ROOT && grantor in s.active && leaf !in s.active && leaf != ROOT
    requires leaf !in s.parent && forall c | c in s.parent :: s.parent[c] != leaf
    ensures Exec(s, bg, Delegate(grantor, leaf)).active == s.active + {leaf}
    ensures Exec(s, bg, Delegate(grantor, leaf)).parent == s.parent[leaf := grantor]
  {
    hide DropPending, DropChallenges, DropGrants;
  }

  lemma ChildRevoked(s: State, bg: Background, a: AgentId)
    requires bg.rootAgent == ROOT && a != ROOT && IsEdge(s, a, ROOT) && ROOT in s.active && a in s.active
    ensures Exec(s, bg, Revoke(ROOT, a)).active == s.active - {a}
    ensures Exec(s, bg, Revoke(ROOT, a)).parent == s.parent - {a}
  {
    hide DropPending, DropChallenges, DropGrants;
  }

  lemma RunRevokedMiddle(bg: Background, a: AgentId, b: AgentId)
    requires bg.rootAgent == ROOT && a != ROOT && b != ROOT && a != b
    ensures Run(bg, RevokedMiddle(a, b)).active == {ROOT, b}
    ensures Run(bg, RevokedMiddle(a, b)).parent == map[b := a]
  {
    hide Run, Exec;
    RunOne(bg, Delegate(ROOT, a));
    LeafAdded(Initial(), bg, ROOT, a);
    RunNext(bg, [Delegate(ROOT, a)], Delegate(a, b));
    LeafAdded(Run(bg, [Delegate(ROOT, a)]), bg, a, b);
    RunNext(bg, [Delegate(ROOT, a)] + [Delegate(a, b)], Revoke(ROOT, a));
    ChildRevoked(Run(bg, [Delegate(ROOT, a)] + [Delegate(a, b)]), bg, a);
  }

  /** Active does not mean attached: a revoked agent leaves its children active and cut off, until a
      cascade collects them. */
  lemma ActiveButDetached(bg: Background, a: AgentId, b: AgentId)
    requires bg.rootAgent == ROOT && a != ROOT && b != ROOT && a != b
    ensures var s := Run(bg, RevokedMiddle(a, b));
            b in s.active && !Attached(s, b) && CascadeEnabled(s, bg, b)
  {
    hide Run, RevokedMiddle;
    var s := Run(bg, RevokedMiddle(a, b));
    RunRevokedMiddle(bg, a, b);
    if Attached(s, b) {
      AttachedParent(s, b);
    }
  }

  // ---- Cascades ----

  ghost predicate CascadeEnabled(s: State, bg: Background, child: AgentId) {
    child in s.parent && CascadeRevokeStep(s, bg, child, s.parent[child]).Accepted?
  }

  /** Some cascade is enabled exactly while some active agent is detached. */
  lemma CascadeEnabledIffDetached(s: State, bg: Background)
    requires bg.rootAgent == ROOT && Tree(s)
    ensures (exists c :: CascadeEnabled(s, bg, c)) <==> (exists a :: a in s.active && !Attached(s, a))
  {
    if exists c :: CascadeEnabled(s, bg, c) {
      var c :| CascadeEnabled(s, bg, c);
      if Attached(s, c) {
        AttachedParent(s, c);
      }
      assert c in s.active && !Attached(s, c);
    }
    if a :| a in s.active && !Attached(s, a) {
      DetachedEnables(s, bg, a);
    }
  }

  lemma DetachedEnables(s: State, bg: Background, a: AgentId)
    requires bg.rootAgent == ROOT && Tree(s) && a in s.active && !Attached(s, a)
    ensures exists c :: CascadeEnabled(s, bg, c)
  {
    var detached := set x | x in s.active && !Attached(s, x);
    assert a in detached;
    assert AttachedBy(s, ROOT, [ROOT]);
    assert detached <= s.parent.Keys;
    var c :| c in detached && s.parent[c] !in detached;
    if s.parent[c] in s.active {
      AttachedChild(s, c);
    }
    assert CascadeEnabled(s, bg, c);
  }

  /** A cascade step removes one detached agent and keeps the attached ones attached. */
  lemma CascadeStep(s: State, bg: Background, child: AgentId)
    requires Tree(s) && CascadeEnabled(s, bg, child)
    ensures var t := CascadeRevokeStep(s, bg, child, s.parent[child]).next;
            && t == Clear(s, child)
            && child in s.active && !Attached(s, child)
            && t.active == s.active - {child}
            && forall a :: Attached(t, a) <==> Attached(s, a)
  {
    var t := Clear(s, child);
    if Attached(s, child) {
      if child != ROOT {
        AttachedParent(s, child);
      }
    }
    forall a ensures Attached(t, a) <==> Attached(s, a) {
      if Attached(t, a) {
        var path :| AttachedBy(t, a, path);
        assert AttachedBy(s, a, path);
      }
      if Attached(s, a) {
        var path :| AttachedBy(s, a, path);
        forall k | 0 <= k < |path| ensures path[k] != child {
          if path[k] == child {
            SuffixAttached(s, a, path, k);
          }
        }
        assert AttachedBy(t, a, path);
      }
    }
  }

  lemma SuffixAttached(s: State, a: AgentId, path: seq<AgentId>, k: nat)
    requires AttachedBy(s, a, path) && k < |path|
    ensures Attached(s, path[k])
  {
    var suffix := path[k..];
    forall i | 0 <= i < |suffix| - 1
      ensures suffix[i] in s.parent && s.parent[suffix[i]] == suffix[i + 1]
    {
      assert suffix[i] == path[k + i] && suffix[i + 1] == path[k + i + 1];
    }
    assert AttachedBy(s, path[k], suffix);
  }

  /** `victims` is a run of accepted cascades from `s`. */
  ghost predicate Cascades(s: State, bg: Background, victims: seq<AgentId>)
    decreases |victims|
  {
    victims == [] || (CascadeEnabled(s, bg, victims[0]) && Cascades(Clear(s, victims[0]), bg, victims[1..]))
  }

  ghost function AfterCascades(s: State, victims: seq<AgentId>): State
    decreases |victims|
  {
    if victims == [] then s else AfterCascades(Clear(s, victims[0]), victims[1..])
  }

  /** Every run of cascades terminates within the number of detached agents, removes detached agents
      only, and, once no further cascade is enabled, leaves active exactly the agents that were
      attached to the root. */
  lemma {:induction false} CascadesDrain(s: State, bg: Background, victims: seq<AgentId>)
    requires bg.rootAgent == ROOT && Inv(s, bg) && Cascades(s, bg, victims)
    ensures var t := AfterCascades(s, victims);
            && Inv(t, bg)
            && t.active <= s.active
            && |t.active| + |victims| == |s.active|
            && (forall a | Attached(s, a) :: a in t.active)
            && (forall a :: Attached(t, a) <==> Attached(s, a))
            && ((forall c :: !CascadeEnabled(t, bg, c)) <==> (forall a :: a in t.active <==> Attached(s, a)))
    decreases |victims|
  {
    if victims == [] {
      CascadeEnabledIffDetached(s, bg);
      forall a | Attached(s, a) ensures a in s.active {
        var path :| AttachedBy(s, a, path);
        assert path[0] in s.active;
      }
    } else {
      CascadeStep(s, bg, victims[0]);
      ClearKeepsInv(s, bg, victims[0]);
      CascadesDrain(Clear(s, victims[0]), bg, victims[1..]);
    }
  }

  /** The same, from any reachable state. */
  lemma RunCascadesDrain(bg: Background, cmds: seq<CommandK>, victims: seq<AgentId>)
    requires bg.rootAgent == ROOT && Cascades(Run(bg, cmds), bg, victims)
    requires forall c :: !CascadeEnabled(AfterCascades(Run(bg, cmds), victims), bg, c)
    ensures forall a :: a in AfterCascades(Run(bg, cmds), victims).active <==> Attached(Run(bg, cmds), a)
  {
    RunInv(bg, cmds);
    CascadesDrain(Run(bg, cmds), bg, victims);
  }
}
