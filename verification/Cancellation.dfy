/** The cancellation tree as atomic steps of many threads deriving, cancelling, cloning and dropping. */
module Cancellation {
  import opened Prelude

  /** Nodes are numbered in creation order. */
  type NodeId = nat
  type ThreadId = nat

  // ----- State -----

  /** Where a derivation stands: about to read the flag, to register, to read it again, or to fire the child. */
  datatype DerivePoint = Checking | Pushing | Rechecking | Storing

  /** Firing one node: nothing in hand, its flag just won, or its taken children being upgraded. */
  datatype FirePoint = Ready | Swapped(node: NodeId) | Upgrading(node: NodeId, weak: seq<NodeId>)

  datatype Thread =
    | Deriving(parent: NodeId, child: NodeId, at: DerivePoint)
    | Cancelling(origin: NodeId, pending: seq<NodeId>, fire: FirePoint)

  /** `requested` is history: the tokens on which cancellation was called. */
  datatype State = State(
    parent: map<NodeId, Option<NodeId>>,
    children: map<NodeId, seq<NodeId>>,
    fired: set<NodeId>,
    handles: multiset<NodeId>,
    threads: map<ThreadId, Thread>,
    requested: set<NodeId>)

  const ROOT: NodeId := 0

  /** One root token, one handle on it. */
  function Initial(): State {
    State(map[ROOT := None], map[ROOT := []], {}, multiset{ROOT}, map[], {})
  }

  /** Whether `m` is `n` or below it. */
  ghost predicate Below(parent: map<NodeId, Option<NodeId>>, m: NodeId, n: NodeId)
    decreases m
  {
    m == n || (m in parent && parent[m].Some? && parent[m].value < m && Below(parent, parent[m].value, n))
  }

  /** A handle, or a strong reference some thread holds. */
  ghost predicate HeldBy(t: Thread, n: NodeId) {
    match t
    case Deriving(parent, child, _) => n == parent || n == child
    case Cancelling(origin, pending, fire) => n == origin || n in pending || (fire != Ready && fire.node == n)
  }

  ghost predicate Referenced(s: State, n: NodeId) {
    n in s.handles || exists t :: t in s.threads && HeldBy(s.threads[t], n)
  }

  /** Strong count above zero: something at or below the node is referenced, since
      every child owns its parent. */
  ghost predicate Live(s: State, n: NodeId) {
    exists m :: Referenced(s, m) && Below(s.parent, m, n)
  }

  // ----- Steps -----

  datatype Step =
    | BeginDerive(t: ThreadId, on: NodeId, child: NodeId)
    | Check(t: ThreadId)
    | Push(t: ThreadId, pruned: set<NodeId>)
    | Recheck(t: ThreadId)
    | Store(t: ThreadId)
    | BeginCancel(t: ThreadId, on: NodeId)
    | Swap(t: ThreadId)
    | Take(t: ThreadId)
    | Upgrade(t: ThreadId)
    | Collected(t: ThreadId)
    | EndCancel(t: ThreadId)
    | Clone(on: NodeId)
    | DropHandle(on: NodeId)

  function Without(s: seq<NodeId>, gone: set<NodeId>): seq<NodeId> {
    if s == [] then [] else (if s[0] in gone then [] else [s[0]]) + Without(s[1..], gone)
  }

  ghost predicate DerivesAt(s: State, t: ThreadId, at: DerivePoint) {
    t in s.threads && s.threads[t].Deriving? && s.threads[t].at == at && s.threads[t].parent in s.children
  }

  ghost predicate Cancels(s: State, t: ThreadId) {
    t in s.threads && s.threads[t].Cancelling?
  }

  function At(s: State, t: ThreadId, thread: Thread): State {
    s.(threads := s.threads[t := thread])
  }

  function Done(s: State, t: ThreadId): State {
    s.(threads := s.threads - {t})
  }

  ghost predicate Enabled(s: State, step: Step) {
    match step
    case BeginDerive(t, on, child) =>
      t !in s.threads && on in s.handles && on in s.parent && on < child && forall n :: n in s.parent ==> n < child
    case Check(t) => DerivesAt(s, t, Checking)
    case Push(t, pruned) => DerivesAt(s, t, Pushing) && forall n :: n in pruned ==> !Live(s, n)
    case Recheck(t) => DerivesAt(s, t, Rechecking)
    case Store(t) => DerivesAt(s, t, Storing)
    case BeginCancel(t, on) => t !in s.threads && on in s.handles
    case Swap(t) => Cancels(s, t) && s.threads[t].fire == Ready && s.threads[t].pending != []
    case Take(t) => Cancels(s, t) && s.threads[t].fire.Swapped? && s.threads[t].fire.node in s.children
    case Upgrade(t) => Cancels(s, t) && s.threads[t].fire.Upgrading? && s.threads[t].fire.weak != []
    case Collected(t) => Cancels(s, t) && s.threads[t].fire.Upgrading? && s.threads[t].fire.weak == []
    case EndCancel(t) => Cancels(s, t) && s.threads[t].fire == Ready && s.threads[t].pending == []
    case Clone(on) => on in s.handles
    case DropHandle(on) => on in s.handles
  }

  /** The effect of a step. Pruning may remove any children found dead; upgrading keeps
      exactly the children still alive. */
  ghost function Next(s: State, step: Step): State
    requires Enabled(s, step)
  {
    match step
    case BeginDerive(t, on, child) =>
      s.(parent := s.parent[child := Some(on)], children := s.children[child := []],
         threads := s.threads[t := Deriving(on, child, Checking)])
    case Check(t) =>
      At(s, t, s.threads[t].(at := if s.threads[t].parent in s.fired then Storing else Pushing))
    case Push(t, pruned) =>
      var d := s.threads[t];
      var kept := Without(s.children[d.parent], pruned);
      At(s, t, d.(at := Rechecking)).(children := s.children[d.parent := kept + [d.child]])
    case Recheck(t) =>
      var d := s.threads[t];
      if d.parent in s.fired then At(s, t, d.(at := Storing))
      else Done(s, t).(handles := s.handles + multiset{d.child})
    case Store(t) =>
      var d := s.threads[t];
      Done(s, t).(fired := s.fired + {d.child}, handles := s.handles + multiset{d.child})
    case BeginCancel(t, on) =>
      At(s, t, Cancelling(on, [on], Ready)).(requested := s.requested + {on})
    case Swap(t) =>
      var c := s.threads[t];
      var x, rest := c.pending[|c.pending| - 1], c.pending[..|c.pending| - 1];
      if x in s.fired then At(s, t, c.(pending := rest))
      else At(s, t, c.(pending := rest, fire := Swapped(x))).(fired := s.fired + {x})
    case Take(t) =>
      var c := s.threads[t];
      At(s, t, c.(fire := Upgrading(c.fire.node, s.children[c.fire.node]))).(children := s.children[c.fire.node := []])
    case Upgrade(t) =>
      var c := s.threads[t];
      var x, rest := c.fire.weak[0], Upgrading(c.fire.node, c.fire.weak[1..]);
      At(s, t, if Live(s, x) then c.(pending := c.pending + [x], fire := rest) else c.(fire := rest))
    case Collected(t) => At(s, t, s.threads[t].(fire := Ready))
    case EndCancel(t) => Done(s, t)
    case Clone(on) => s.(handles := s.handles + multiset{on})
    case DropHandle(on) => s.(handles := s.handles - multiset{on})
  }

  // ----- What is owed -----

  ghost predicate DerivedBy(s: State, t: ThreadId, n: NodeId) {
    t in s.threads && s.threads[t].Deriving? && s.threads[t].child == n
  }

  ghost predicate QueuedBy(s: State, t: ThreadId, n: NodeId) {
    && t in s.threads && s.threads[t].Cancelling?
    && (n in s.threads[t].pending || (s.threads[t].fire.Upgrading? && n in s.threads[t].fire.weak))
  }

  /** The flag is down, or up with its winner still to take the children. */
  ghost predicate Untaken(s: State, p: NodeId) {
    p !in s.fired || exists t :: t in s.threads && s.threads[t].Cancelling? && s.threads[t].fire == Swapped(p)
  }

  /** A live unfired child is being derived, is queued by a cancel, or is registered
      where a cancel has yet to take it. */
  ghost predicate Owed(s: State, n: NodeId, p: NodeId) {
    || (exists t :: DerivedBy(s, t, n))
    || (exists t :: QueuedBy(s, t, n))
    || (p in s.children && n in s.children[p] && Untaken(s, p))
  }

  ghost predicate RequestedAbove(s: State, n: NodeId) {
    exists a :: a in s.requested && Below(s.parent, n, a)
  }

  // ----- The invariant -----

  ghost predicate Shape(s: State) {
    && s.children.Keys == s.parent.Keys
    && (forall n :: n in s.parent && s.parent[n].Some? ==> s.parent[n].value in s.parent && s.parent[n].value < n)
    && (forall p, n :: p in s.children && n in s.children[p] ==> n in s.parent && s.parent[n] == Some(p))
    && (forall n :: Referenced(s, n) ==> n in s.parent)
    && (forall t, n :: QueuedBy(s, t, n) ==> n in s.parent)
  }

  /** A derivation fires its child only below a fired parent, and has registered it by the second reading. */
  ghost predicate Stands(s: State, d: Thread)
    requires d.Deriving?
  {
    && d.parent in s.parent && d.child in s.parent && s.parent[d.child] == Some(d.parent)
    && (d.at == Storing ==> d.parent in s.fired)
    && (d.at == Rechecking && d.parent !in s.fired ==> d.parent in s.children && d.child in s.children[d.parent])
  }

  ghost predicate DerivationsStand(s: State) {
    forall t :: t in s.threads && s.threads[t].Deriving? ==> Stands(s, s.threads[t])
  }

  /** Until a derivation returns, its child is nobody else's and has no children. */
  ghost predicate Unshared(s: State) {
    && (forall t, n :: DerivedBy(s, t, n) ==> n !in s.handles)
    && (forall t, n: NodeId, m :: DerivedBy(s, t, n) && m in s.parent ==> s.parent[m] != Some(n))
    && (forall t, u, n :: DerivedBy(s, t, n) && DerivedBy(s, u, n) ==> t == u)
  }

  ghost predicate NothingForgotten(s: State) {
    forall n :: n in s.parent && s.parent[n].Some? && n !in s.fired && Live(s, n) ==> Owed(s, n, s.parent[n].value)
  }

  ghost predicate OnlyRequested(s: State) {
    && (forall n :: n in s.fired ==> n in s.parent && RequestedAbove(s, n))
    && (forall t, n :: QueuedBy(s, t, n) ==> RequestedAbove(s, n))
    && (forall t :: t in s.threads && s.threads[t].Cancelling? && s.threads[t].fire != Ready ==>
                      s.threads[t].fire.node in s.fired)
  }

  ghost predicate RequestsReach(s: State) {
    forall r :: r in s.requested ==> r in s.fired || exists t :: Cancels(s, t) && r in s.threads[t].pending
  }

  ghost predicate Inv(s: State) {
    Shape(s) && DerivationsStand(s) && Unshared(s) && NothingForgotten(s) && OnlyRequested(s) && RequestsReach(s)
  }

  // ----- Ancestry -----

  ghost predicate Rooted(parent: map<NodeId, Option<NodeId>>) {
    forall n :: n in parent && parent[n].Some? ==> parent[n].value in parent && parent[n].value < n
  }

  lemma {:induction false} BelowTransitive(parent: map<NodeId, Option<NodeId>>, a: NodeId, b: NodeId, c: NodeId)
    requires Below(parent, a, b) && Below(parent, b, c)
    ensures Below(parent, a, c)
    decreases a
  {
    if a != b {
      BelowTransitive(parent, parent[a].value, b, c);
    }
  }

  /** A fresh leaf changes no ancestry among the others. */
  lemma {:induction false} BelowFresh(parent: map<NodeId, Option<NodeId>>, child: NodeId, on: NodeId, m: NodeId,
                                      n: NodeId)
    requires Rooted(parent) && child !in parent && m in parent
    ensures Below(parent[child := Some(on)], m, n) <==> Below(parent, m, n)
    decreases m
  {
    if m != n && parent[m].Some? {
      BelowFresh(parent, child, on, parent[m].value, n);
    }
  }

  // ----- Liveness only shrinks -----

  ghost predicate LivenessShrinks(s: State, next: State) {
    forall n :: Live(next, n) ==> Live(s, n)
  }

  lemma ReferencesBound(s: State, next: State)
    requires next.parent == s.parent
    requires forall m :: Referenced(next, m) ==> Live(s, m)
    ensures LivenessShrinks(s, next)
  {
    forall n | Live(next, n)
      ensures Live(s, n)
    {
      var m :| Referenced(next, m) && Below(next.parent, m, n);
      var k :| Referenced(s, k) && Below(s.parent, k, m);
      BelowTransitive(s.parent, k, m, n);
    }
  }

  lemma ReferencedIsLive(s: State, n: NodeId)
    requires Referenced(s, n)
    ensures Live(s, n)
  {
    assert Below(s.parent, n, n);
  }

  /** A reference a step creates points at something already alive. */
  lemma NewReference(s: State, step: Step, m: NodeId)
    requires Enabled(s, step) && !step.BeginDerive? && Referenced(Next(s, step), m)
    ensures Referenced(s, m) || Live(s, m)
  {
    var next := Next(s, step);
    if m in next.handles && (step.Recheck? || step.Store?) {
      assert HeldBy(s.threads[step.t], s.threads[step.t].child);
    }
    if t :| t in next.threads && HeldBy(next.threads[t], m) {
      assert t in s.threads ==> HeldBy(s.threads[t], m) || (step.Upgrade? && Live(s, m));
    }
  }

  /** Every step but a derivation leaves the tree as it is and revives nothing. */
  lemma StepShrinks(s: State, step: Step)
    requires Enabled(s, step) && !step.BeginDerive?
    ensures Next(s, step).parent == s.parent && LivenessShrinks(s, Next(s, step))
  {
    var next := Next(s, step);
    forall m | Referenced(next, m)
      ensures Live(s, m)
    {
      NewReference(s, step, m);
      if Referenced(s, m) {
        ReferencedIsLive(s, m);
      }
    }
    ReferencesBound(s, next);
  }

  lemma {:induction false} WithoutMember(s: seq<NodeId>, gone: set<NodeId>, n: NodeId)
    ensures n in Without(s, gone) <==> n in s && n !in gone
  {
    if s != [] {
      WithoutMember(s[1..], gone, n);
    }
  }

  // ----- Each conjunct, over every step -----

  lemma ShapeKept(s: State, step: Step)
    requires Shape(s) && DerivationsStand(s) && Enabled(s, step)
    ensures Shape(Next(s, step))
  {
    hide Next, Enabled;
    TreeKept(s, step);
    forall p, n | p in Next(s, step).children && n in Next(s, step).children[p]
      ensures n in Next(s, step).parent && Next(s, step).parent[n] == Some(p)
    {
      ChildParent(s, step, p, n);
    }
    forall t, n | QueuedBy(Next(s, step), t, n)
      ensures n in Next(s, step).parent
    {
      QueuedExists(s, step, t, n);
    }
    forall n | Referenced(Next(s, step), n)
      ensures n in Next(s, step).parent
    {
      ReferenceSource(s, step, n);
    }
  }

  lemma TreeKept(s: State, step: Step)
    requires Shape(s) && DerivationsStand(s) && Enabled(s, step)
    ensures Next(s, step).children.Keys == Next(s, step).parent.Keys && Rooted(Next(s, step).parent)
    ensures forall n :: n in s.parent ==> n in Next(s, step).parent && Next(s, step).parent[n] == s.parent[n]
    ensures step.BeginDerive? ==> step.child in Next(s, step).parent
  {
    hide DerivationsStand;
    if !step.BeginDerive? {
      assert Next(s, step).parent == s.parent && Next(s, step).children.Keys == s.children.Keys;
    }
  }

  lemma ChildParent(s: State, step: Step, p: NodeId, n: NodeId)
    requires Shape(s) && DerivationsStand(s) && Enabled(s, step) && p in Next(s, step).children
             && n in Next(s, step).children[p]
    ensures n in Next(s, step).parent && Next(s, step).parent[n] == Some(p)
  {
    ChildSource(s, step, p, n);
    assert n in s.parent && s.parent[n] == Some(p);
  }

  lemma QueuedExists(s: State, step: Step, t: ThreadId, n: NodeId)
    requires Shape(s) && Enabled(s, step) && QueuedBy(Next(s, step), t, n)
    ensures n in s.parent
  {
    QueueSource(s, step, t, n);
    if step.BeginCancel? && n == step.on {
      assert Referenced(s, n);
    }
  }

  lemma UnsharedKept(s: State, step: Step)
    requires Shape(s) && DerivationsStand(s) && Unshared(s) && Enabled(s, step)
    ensures Unshared(Next(s, step))
  {
    forall t, n | DerivedBy(Next(s, step), t, n)
      ensures n !in Next(s, step).handles
    {
      DerivedSource(s, step, t, n);
      HandleSource(s, step, n);
    }
    forall t, n: NodeId, m | DerivedBy(Next(s, step), t, n) && m in Next(s, step).parent
      ensures Next(s, step).parent[m] != Some(n)
    {
      DerivedSource(s, step, t, n);
      if step.BeginDerive? {
        assert Referenced(s, step.on);
      }
    }
    forall t, u, n | DerivedBy(Next(s, step), t, n) && DerivedBy(Next(s, step), u, n)
      ensures t == u
    {
      DerivedSource(s, step, t, n);
      DerivedSource(s, step, u, n);
    }
  }

  /** A handle was there before, or is what a derivation just returned. */
  lemma HandleSource(s: State, step: Step, n: NodeId)
    requires Enabled(s, step)
    ensures n in Next(s, step).handles ==>
              n in s.handles || ((step.Recheck? || step.Store?) && DerivedBy(s, step.t, n)
                                 && step.t !in Next(s, step).threads)
  {
  }

  /** A child under derivation was so before, or is fresh. */
  lemma DerivedSource(s: State, step: Step, t: ThreadId, n: NodeId)
    requires Shape(s) && DerivationsStand(s) && Enabled(s, step) && DerivedBy(Next(s, step), t, n)
    ensures if step.BeginDerive? && t == step.t then n == step.child && n !in s.handles && n !in s.parent
            else DerivedBy(s, t, n) && n in s.parent
  {
    if step.BeginDerive? && t == step.t {
      assert n in s.handles ==> Referenced(s, n);
    }
  }

  lemma ChildSource(s: State, step: Step, p: NodeId, n: NodeId)
    requires Enabled(s, step) && p in Next(s, step).children && n in Next(s, step).children[p]
    ensures || (p in s.children && n in s.children[p])
            || (step.Push? && s.threads[step.t].child == n && s.threads[step.t].parent == p)
  {
    if step.Push? && p == s.threads[step.t].parent {
      WithoutMember(s.children[p], step.pruned, n);
    }
  }

  /** A registered live child stays registered, unless its fired parent's children are taken. */
  lemma ChildStays(s: State, step: Step, p: NodeId, n: NodeId)
    requires Enabled(s, step) && p in s.children && n in s.children[p] && Live(s, n)
    requires step.Take? ==> s.threads[step.t].fire.node != p
    requires step.BeginDerive? ==> step.child != p
    ensures p in Next(s, step).children && n in Next(s, step).children[p]
  {
    if step.Push? && p == s.threads[step.t].parent {
      WithoutMember(s.children[p], step.pruned, n);
    }
  }

  /** What a thread queues it queued before, was just asked to cancel, or took from the fired node's children. */
  lemma QueueSource(s: State, step: Step, t: ThreadId, n: NodeId)
    requires Enabled(s, step) && QueuedBy(Next(s, step), t, n)
    ensures || QueuedBy(s, t, n)
            || (step.BeginCancel? && n == step.on)
            || (step.Take? && n in s.children[s.threads[step.t].fire.node])
  {
  }

  lemma ReferenceSource(s: State, step: Step, n: NodeId)
    requires Enabled(s, step) && Referenced(Next(s, step), n)
    ensures || Referenced(s, n)
            || (step.BeginDerive? && n == step.child)
            || (exists t :: QueuedBy(s, t, n))
  {
    var next := Next(s, step);
    if n in next.handles && (step.Recheck? || step.Store?) {
      assert HeldBy(s.threads[step.t], s.threads[step.t].child);
    }
    if t :| t in next.threads && HeldBy(next.threads[t], n) {
      assert t in s.threads ==> HeldBy(s.threads[t], n) || QueuedBy(s, t, n) || step.BeginDerive?;
    }
  }

  lemma DerivationsKept(s: State, step: Step)
    requires Shape(s) && DerivationsStand(s) && OnlyRequested(s) && Enabled(s, step)
    ensures DerivationsStand(Next(s, step))
  {
    TreeKept(s, step);
    forall t | t in Next(s, step).threads && Next(s, step).threads[t].Deriving?
      ensures Stands(Next(s, step), Next(s, step).threads[t])
    {
      DerivationKept(s, step, t);
    }
  }

  lemma DerivationKept(s: State, step: Step, t: ThreadId)
    requires Shape(s) && DerivationsStand(s) && OnlyRequested(s) && Enabled(s, step)
    requires t in Next(s, step).threads && Next(s, step).threads[t].Deriving?
    ensures Stands(Next(s, step), Next(s, step).threads[t])
  {
    if t in s.threads && Next(s, step).threads[t] == s.threads[t] && s.threads[t].at == Rechecking
       && s.threads[t].parent !in s.fired {
      var d := s.threads[t];
      assert HeldBy(d, d.child) && Stands(s, d);
      ReferencedIsLive(s, d.child);
      ChildStays(s, step, d.parent, d.child);
    }
  }

  lemma RequestedStays(s: State, step: Step, n: NodeId)
    requires Shape(s) && Enabled(s, step) && n in s.parent && RequestedAbove(s, n)
    ensures RequestedAbove(Next(s, step), n)
  {
    var a :| a in s.requested && Below(s.parent, n, a);
    if step.BeginDerive? {
      BelowFresh(s.parent, step.child, step.on, n, a);
    }
    assert a in Next(s, step).requested;
  }

  lemma RequestedBelow(s: State, n: NodeId, p: NodeId)
    requires Shape(s) && n in s.parent && s.parent[n] == Some(p) && RequestedAbove(s, p)
    ensures RequestedAbove(s, n)
  {
    var a :| a in s.requested && Below(s.parent, p, a);
    assert Below(s.parent, n, a);
  }

  lemma OnlyRequestedKept(s: State, step: Step)
    requires Shape(s) && DerivationsStand(s) && OnlyRequested(s) && Enabled(s, step)
    ensures OnlyRequested(Next(s, step))
  {
    var next := Next(s, step);
    forall n | n in next.fired
      ensures n in next.parent && RequestedAbove(next, n)
    {
      FiredSource(s, step, n);
      RequestedStays(s, step, n);
    }
    forall t, n | QueuedBy(next, t, n)
      ensures RequestedAbove(next, n)
    {
      QueueSource(s, step, t, n);
      if step.BeginCancel? && n == step.on {
        assert Below(next.parent, n, n);
      } else {
        if step.Take? && n in s.children[s.threads[step.t].fire.node] {
          RequestedBelow(s, n, s.threads[step.t].fire.node);
        }
        RequestedStays(s, step, n);
      }
    }
    forall t | t in next.threads && next.threads[t].Cancelling? && next.threads[t].fire != Ready
      ensures next.threads[t].fire.node in next.fired
    {
    }
  }

  /** Whatever a step fires, someone above it was asked to cancel. */
  lemma FiredSource(s: State, step: Step, n: NodeId)
    requires Shape(s) && DerivationsStand(s) && OnlyRequested(s) && Enabled(s, step) && n in Next(s, step).fired
    ensures n in s.parent && RequestedAbove(s, n)
  {
    if n !in s.fired {
      if step.Store? {
        RequestedBelow(s, n, s.threads[step.t].parent);
      } else {
        assert QueuedBy(s, step.t, n);
      }
    }
  }

  lemma RequestsKept(s: State, step: Step)
    requires RequestsReach(s) && Enabled(s, step)
    ensures RequestsReach(Next(s, step))
  {
    var next := Next(s, step);
    forall r | r in next.requested
      ensures r in next.fired || exists t :: Cancels(next, t) && r in next.threads[t].pending
    {
      if r in s.requested && r !in s.fired {
        var t :| Cancels(s, t) && r in s.threads[t].pending;
        PendingStays(s, step, t, r);
      } else if r !in s.requested {
        assert Cancels(next, step.t) && r in next.threads[step.t].pending;
      }
    }
  }

  /** A queued strong reference leaves the queue only by being fired. */
  lemma PendingStays(s: State, step: Step, t: ThreadId, n: NodeId)
    requires Enabled(s, step) && Cancels(s, t) && n in s.threads[t].pending
    ensures n in Next(s, step).fired || (Cancels(Next(s, step), t) && n in Next(s, step).threads[t].pending)
  {
    if step.Swap? && step.t == t {
      var pending := s.threads[t].pending;
      assert pending == pending[..|pending| - 1] + [pending[|pending| - 1]];
    }
  }

  // ----- Nothing is forgotten -----

  lemma OwedStays(s: State, step: Step, n: NodeId, p: NodeId)
    requires Inv(s) && Enabled(s, step) && !step.BeginDerive?
    requires n in s.parent && s.parent[n] == Some(p) && n !in Next(s, step).fired && Live(Next(s, step), n)
             && Live(s, n)
    requires Owed(s, n, p)
    ensures Owed(Next(s, step), n, p)
  {
    if t :| DerivedBy(s, t, n) {
      DerivedStays(s, step, t, n, p);
    } else if t :| QueuedBy(s, t, n) {
      QueuedStays(s, step, t, n);
    } else {
      RegisteredStays(s, step, n, p);
    }
  }

  lemma DerivedStays(s: State, step: Step, t: ThreadId, n: NodeId, p: NodeId)
    requires Shape(s) && DerivationsStand(s) && Enabled(s, step) && !step.BeginDerive?
    requires DerivedBy(s, t, n) && s.parent[n] == Some(p) && n !in Next(s, step).fired
    ensures Owed(Next(s, step), n, p)
  {
    var next := Next(s, step);
    if !DerivedBy(next, t, n) {
      assert step == Recheck(t) && p !in s.fired;
      assert n in s.children[p];
    }
  }

  lemma QueuedStays(s: State, step: Step, t: ThreadId, n: NodeId)
    requires Enabled(s, step) && Live(s, n)
    requires QueuedBy(s, t, n) && n !in Next(s, step).fired
    ensures QueuedBy(Next(s, step), t, n)
  {
    if n in s.threads[t].pending {
      PendingStays(s, step, t, n);
    } else {
      var weak := s.threads[t].fire.weak;
      assert weak == [weak[0]] + weak[1..];
    }
  }

  lemma RegisteredStays(s: State, step: Step, n: NodeId, p: NodeId)
    requires Shape(s) && Unshared(s) && Enabled(s, step) && !step.BeginDerive? && Live(s, n)
    requires p in s.children && n in s.children[p] && Untaken(s, p)
    ensures Owed(Next(s, step), n, p)
  {
    var next := Next(s, step);
    if step.Take? && s.threads[step.t].fire.node == p {
      assert QueuedBy(next, step.t, n);
    } else {
      ChildStays(s, step, p, n);
      assert s.parent[n] == Some(p);
      assert step.Store? ==> DerivedBy(s, step.t, s.threads[step.t].child);
      UntakenStays(s, step, p);
    }
  }

  lemma UntakenStays(s: State, step: Step, p: NodeId)
    requires Enabled(s, step) && Untaken(s, p)
    requires step.Take? ==> s.threads[step.t].fire.node != p
    requires step.Store? ==> s.threads[step.t].child != p
    ensures Untaken(Next(s, step), p)
  {
    var next := Next(s, step);
    if p in s.fired {
      var t :| t in s.threads && s.threads[t].Cancelling? && s.threads[t].fire == Swapped(p);
      assert t in next.threads && next.threads[t].Cancelling? && next.threads[t].fire == Swapped(p);
    } else if p in next.fired {
      assert next.threads[step.t].fire == Swapped(p);
    }
  }

  lemma NothingForgottenKept(s: State, step: Step)
    requires Inv(s) && Enabled(s, step)
    ensures NothingForgotten(Next(s, step))
  {
    var next := Next(s, step);
    forall n | n in next.parent && next.parent[n].Some? && n !in next.fired && Live(next, n)
      ensures Owed(next, n, next.parent[n].value)
    {
      if step.BeginDerive? {
        FreshOwed(s, step, n);
      } else {
        StepShrinks(s, step);
        OwedStays(s, step, n, s.parent[n].value);
      }
    }
  }

  /** A derivation adds one node, held by its own thread, and revives nothing else. */
  lemma FreshOwed(s: State, step: Step, n: NodeId)
    requires Inv(s) && Enabled(s, step) && step.BeginDerive?
    requires n in Next(s, step).parent && Next(s, step).parent[n].Some? && n !in s.fired && Live(Next(s, step), n)
    ensures Owed(Next(s, step), n, Next(s, step).parent[n].value)
  {
    var next := Next(s, step);
    if n == step.child {
      assert DerivedBy(next, step.t, n);
    } else {
      FreshRevivesNothing(s, step, n);
      var p := s.parent[n].value;
      if t :| DerivedBy(s, t, n) {
        assert DerivedBy(next, t, n);
      } else if t :| QueuedBy(s, t, n) {
        assert QueuedBy(next, t, n);
      } else {
        UntakenStays(s, step, p);
      }
    }
  }

  lemma FreshRevivesNothing(s: State, step: Step, n: NodeId)
    requires Shape(s) && Enabled(s, step) && step.BeginDerive? && n in s.parent && Live(Next(s, step), n)
    ensures Live(s, n)
  {
    var next := Next(s, step);
    var m :| Referenced(next, m) && Below(next.parent, m, n);
    ReferenceSource(s, step, m);
    if m == step.child {
      BelowFresh(s.parent, step.child, step.on, step.on, n);
      assert Referenced(s, step.on);
    } else {
      assert Referenced(s, m) by {
        if t :| t in next.threads && HeldBy(next.threads[t], m) {
          assert t != step.t ==> HeldBy(s.threads[t], m);
        }
      }
      BelowFresh(s.parent, step.child, step.on, m, n);
    }
  }

  lemma StepKeeps(s: State, step: Step)
    requires Inv(s) && Enabled(s, step)
    ensures Inv(Next(s, step))
  {
    ShapeKept(s, step);
    DerivationsKept(s, step);
    UnsharedKept(s, step);
    OnlyRequestedKept(s, step);
    RequestsKept(s, step);
    NothingForgottenKept(s, step);
  }

  // ----- Runs -----

  ghost predicate Run(run: seq<State>, steps: seq<Step>) {
    && |run| == |steps| + 1 && run[0] == Initial()
    && forall i :: 0 <= i < |steps| ==> Enabled(run[i], steps[i]) && run[i + 1] == Next(run[i], steps[i])
  }

  lemma {:induction false} RunInv(run: seq<State>, steps: seq<Step>, i: nat)
    requires Run(run, steps) && i < |run|
    ensures Inv(run[i])
  {
    if i > 0 {
      RunInv(run, steps, i - 1);
      StepKeeps(run[i - 1], steps[i - 1]);
      assert run[i - 1 + 1] == Next(run[i - 1], steps[i - 1]);
    }
  }

  /** Nothing fires unless it or an ancestor was cancelled, at any moment of any run. */
  lemma FiredOnlyOnRequest(run: seq<State>, steps: seq<Step>, i: nat, n: NodeId)
    requires Run(run, steps) && i < |run| && n in run[i].fired
    ensures RequestedAbove(run[i], n)
  {
    RunInv(run, steps, i);
  }

  /** With no thread mid-step, a live token below a fired one has fired. */
  lemma {:induction false} QuietFires(s: State, n: NodeId, a: NodeId)
    requires Inv(s) && s.threads == map[] && Live(s, n) && n in s.parent && Below(s.parent, n, a) && a in s.fired
    ensures n in s.fired
    decreases n
  {
    if n != a {
      var p := s.parent[n].value;
      ParentLives(s, n, p);
      QuietFires(s, p, a);
      assert n !in s.fired ==> Owed(s, n, p);
    }
  }

  lemma ParentLives(s: State, n: NodeId, p: NodeId)
    requires Shape(s) && n in s.parent && s.parent[n] == Some(p) && Live(s, n)
    ensures Live(s, p)
  {
    var m :| Referenced(s, m) && Below(s.parent, m, n);
    assert Below(s.parent, p, p) && Below(s.parent, n, p);
    BelowTransitive(s.parent, m, n, p);
  }

  /** In every interleaving, once no derivation or cancel is mid-step, a live token is
      fired exactly when it or one of its ancestors was cancelled. */
  lemma QuietTokensAgree(run: seq<State>, steps: seq<Step>, i: nat, n: NodeId)
    requires Run(run, steps) && i < |run| && run[i].threads == map[]
    requires n in run[i].parent && Live(run[i], n)
    ensures n in run[i].fired <==> RequestedAbove(run[i], n)
  {
    RunInv(run, steps, i);
    if RequestedAbove(run[i], n) {
      var a :| a in run[i].requested && Below(run[i].parent, n, a);
      QuietFires(run[i], n, a);
    }
  }

  /** Pruning loses no live descendant: with no thread mid-step every live unfired child
      is still registered with its parent, which has not fired. */
  lemma PruningLosesNothing(run: seq<State>, steps: seq<Step>, i: nat, n: NodeId)
    requires Run(run, steps) && i < |run| && run[i].threads == map[]
    requires n in run[i].parent && run[i].parent[n].Some? && Live(run[i], n) && n !in run[i].fired
    ensures var p := run[i].parent[n].value;
            p !in run[i].fired && p in run[i].children && n in run[i].children[p]
  {
    RunInv(run, steps, i);
    assert Owed(run[i], n, run[i].parent[n].value);
  }
}
