/** Whole histories of the claim store: any sequence of operations by any number
    of holders, under a clock that never runs backwards. */
module ClaimHistory {
  import opened Base
  import opened Claims

  /** One acquisition, the time of its last heartbeat, and the interval its holder may rely on,
      [start, until). */
  datatype Epoch = Epoch(ref: Ref, start: int, beat: int, until: int, open: bool)

  datatype World = World(claims: Table, clock: int, issued: set<string>, epochs: seq<Epoch>)

  datatype Op =
    | Tick(elapsed: nat)
    | Create(run: string)
    | Acquire(run: string, owner: string, token: string, lease: int)
    | Heartbeat(ref: Ref, extendFor: int)
    | Release(ref: Ref)
    | Complete(ref: Ref)
    | Cleanup(run: string)  // CleanupTerminal of a finished run

  function Initial(clock: int): (w: World) {
    World(map[], clock, {}, [])
  }

  /** The credential ref would currently be accepted. */
  predicate Live(w: World, ref: Ref) {
    ref.run in w.claims && Matches(w.claims[ref.run], ref)
  }

  /** A lease that is given up ends now; one that ran out already ended. */
  function End(es: seq<Epoch>, run: string, now: int): (r: seq<Epoch>)
    ensures |r| == |es|
  {
    seq(|es|, i requires 0 <= i < |es| =>
      if es[i].open && es[i].ref.run == run
      then es[i].(open := false, until := Min(es[i].until, now)) else es[i])
  }

  /** A superseded epoch keeps the interval it was promised. */
  function Supersede(es: seq<Epoch>, run: string): (r: seq<Epoch>)
    ensures |r| == |es|
  {
    seq(|es|, i requires 0 <= i < |es| =>
      if es[i].open && es[i].ref.run == run then es[i].(open := false) else es[i])
  }

  function Extend(es: seq<Epoch>, run: string, now: int, until: int): (r: seq<Epoch>)
    ensures |r| == |es|
  {
    seq(|es|, i requires 0 <= i < |es| =>
      if es[i].open && es[i].ref.run == run then es[i].(beat := now, until := until) else es[i])
  }

  /** One operation. A refused operation changes nothing; tokens are nonces. An epoch is promised
      the time it asked for, counted from the operation. */
  function Apply(w: World, op: Op): (v: World) {
    match op
    case Tick(d) => w.(clock := w.clock + d)
    case Create(r) =>
      if r in w.claims then w else w.(claims := w.claims[r := NewClaim(w.clock)])
    case Acquire(r, owner, token, lease) =>
      if token in w.issued then w else
        (match TryAcquire(w.claims, r, owner, token, w.clock, lease)
         case Err(_) => w
         case Ok(t) =>
           var ref := Ref(r, owner, token, t[r].generation);
           World(t, w.clock, w.issued + {token},
                 Supersede(w.epochs, r) + [Epoch(ref, w.clock, w.clock, w.clock + lease, true)]))
    case Heartbeat(ref, extendFor) =>
      (match TryHeartbeat(w.claims, ref, w.clock, extendFor)
       case Err(_) => w
       case Ok(t) => w.(claims := t, epochs := Extend(w.epochs, ref.run, w.clock, w.clock + extendFor)))
    case Release(ref) =>
      (match TryRelease(w.claims, ref, w.clock)
       case Err(_) => w
       case Ok(t) => w.(claims := t, epochs := End(w.epochs, ref.run, w.clock)))
    case Complete(ref) =>
      (match TryComplete(w.claims, ref)
       case Err(_) => w
       case Ok(t) => w.(claims := t, epochs := End(w.epochs, ref.run, w.clock)))
    case Cleanup(r) =>
      w.(claims := w.claims - {r}, epochs := End(w.epochs, r, w.clock))
  }

  function Run(w: World, ops: seq<Op>): (v: World)
    decreases |ops|
  {
    if ops == [] then w else Run(Apply(w, ops[0]), ops[1..])
  }

  // ----- fencing

  /** A credential that is not accepted now is not revived by any operation. */
  lemma NeverRevived(w: World, op: Op, ref: Ref)
    requires ref.token in w.issued && !Live(w, ref)
    ensures ref.token in Apply(w, op).issued && !Live(Apply(w, op), ref)
  {
    match op case _ =>
  }

  lemma {:induction false} NeverRevivedAfter(w: World, ops: seq<Op>, ref: Ref)
    requires ref.token in w.issued && !Live(w, ref)
    ensures !Live(Run(w, ops), ref)
    decreases |ops|
  {
    if ops != [] {
      NeverRevived(w, ops[0], ref);
      NeverRevivedAfter(Apply(w, ops[0]), ops[1..], ref);
    }
  }

  /** What ends an epoch: its own release or completion, a cleanup of the run, or
      another acquisition of it; nothing else does. */
  lemma EpochEnds(w: World, op: Op, ref: Ref)
    requires Live(w, ref)
    ensures !Live(Apply(w, op), ref) <==>
              || (op == Release(ref) && ValidRef(ref))
              || (op == Complete(ref) && ValidRef(ref))
              || op == Cleanup(ref.run)
              || (op.Acquire? && op.run == ref.run && op.token !in w.issued
                  && TryAcquire(w.claims, op.run, op.owner, op.token, w.clock, op.lease).Ok?)
  {
    match op case _ =>
  }

  // ----- lease intervals

  ghost predicate ClaimOk(c: Claim, issued: set<string>) {
    && c.generation == c.attempts && c.generation >= 0
    && (c.status == ClaimClaimed ==> c.expiresAt.Some? && c.token in issued && c.generation >= 1)
    && (c.status == ClaimRunnable ==> c.expiresAt == None)
  }

  ghost predicate EpochOk(w: World, e: Epoch) {
    && e.ref.token in w.issued && e.start <= w.clock && e.start <= e.until
    && (!e.open ==> e.until <= w.clock)
    && (e.open ==> Live(w, e.ref) && Records(w.claims[e.ref.run], e))
  }

  /** The claim row shows the epoch and its times. */
  ghost predicate Records(c: Claim, e: Epoch) {
    && c.owner == e.ref.owner && c.token == e.ref.token && c.generation == e.ref.generation
    && c.acquiredAt == Some(e.start) && c.heartbeatAt == Some(e.beat) && c.expiresAt == Some(e.until)
  }

  /** A claimed row belongs to the open epoch of its run. */
  ghost predicate Owned(w: World, r: string)
    requires r in w.claims
  {
    w.claims[r].status == ClaimClaimed ==>
      exists i :: 0 <= i < |w.epochs| && w.epochs[i].open && w.epochs[i].ref.run == r
  }

  ghost predicate Inv(w: World) {
    && (forall r :: r in w.claims ==> ClaimOk(w.claims[r], w.issued))
    && (forall i :: 0 <= i < |w.epochs| ==> EpochOk(w, w.epochs[i]))
    && (forall i, j :: 0 <= i < j < |w.epochs| && w.epochs[i].ref.run == w.epochs[j].ref.run ==>
          !w.epochs[i].open && w.epochs[i].until <= w.epochs[j].start)
  }

  lemma StepKeepsInv(w: World, op: Op)
    requires Inv(w)
    ensures Inv(Apply(w, op))
  {
    match op {
      case Acquire(_, _, _, _) => AcquireKeepsInv(w, op);
      case Heartbeat(_, _) => HeartbeatKeepsInv(w, op);
      case Tick(_) => OtherKeepsInv(w, op);
      case Create(_) => OtherKeepsInv(w, op);
      case _ => EndKeepsInv(w, op);
    }
  }

  lemma OtherKeepsInv(w: World, op: Op)
    requires Inv(w) && (op.Tick? || op.Create?)
    ensures Inv(Apply(w, op))
  {
    var v := Apply(w, op);
    forall i | 0 <= i < |v.epochs| ensures EpochOk(v, v.epochs[i]) {
      assert EpochOk(w, w.epochs[i]);
    }
  }

  lemma AcquireKeepsInv(w: World, op: Op)
    requires Inv(w) && op.Acquire?
    ensures Inv(Apply(w, op))
  {
    var v := Apply(w, op);
    forall i | 0 <= i < |v.epochs| ensures EpochOk(v, v.epochs[i]) {
      assert i < |w.epochs| ==> EpochOk(w, w.epochs[i]);
    }
  }

  lemma HeartbeatKeepsInv(w: World, op: Op)
    requires Inv(w) && op.Heartbeat?
    ensures Inv(Apply(w, op))
  {
    var v := Apply(w, op);
    forall i | 0 <= i < |v.epochs| ensures EpochOk(v, v.epochs[i]) {
      assert EpochOk(w, w.epochs[i]);
    }
  }

  lemma EndKeepsInv(w: World, op: Op)
    requires Inv(w) && (op.Release? || op.Complete? || op.Cleanup?)
    ensures Inv(Apply(w, op))
  {
    var v := Apply(w, op);
    forall i | 0 <= i < |v.epochs| ensures EpochOk(v, v.epochs[i]) {
      assert EpochOk(w, w.epochs[i]);
    }
  }

  lemma {:induction false} ReachableInv(w: World, ops: seq<Op>)
    requires Inv(w)
    ensures Inv(Run(w, ops))
    decreases |ops|
  {
    if ops != [] {
      StepKeepsInv(w, ops[0]);
      ReachableInv(Apply(w, ops[0]), ops[1..]);
    }
  }

  /** In every history the intervals that two epochs of one run asked for do not overlap. */
  lemma LeasesAreDisjoint(clock: int, ops: seq<Op>, i: nat, j: nat)
    requires i < j < |Run(Initial(clock), ops).epochs|
    ensures var es := Run(Initial(clock), ops).epochs;
            es[i].ref.run == es[j].ref.run ==> es[i].start <= es[i].until <= es[j].start <= es[j].until
  {
    ReachableInv(Initial(clock), ops);
  }

  lemma GenerationCountsAttempts(clock: int, ops: seq<Op>, r: string)
    requires r in Run(Initial(clock), ops).claims
    ensures var c := Run(Initial(clock), ops).claims[r]; c.generation == c.attempts >= 0
  {
    ReachableInv(Initial(clock), ops);
  }

  /** Fencing over histories: once an operation ends an epoch, its credential is
      refused by every later heartbeat, release and completion, whatever any
      holder does in between and however often the claim is re-created. */
  lemma EndedEpochStaysFenced(clock: int, before: seq<Op>, op: Op, after: seq<Op>, ref: Ref, extendFor: int)
    requires Live(Run(Initial(clock), before), ref)
    requires !Live(Apply(Run(Initial(clock), before), op), ref)
    ensures var v := Run(Apply(Run(Initial(clock), before), op), after);
            && TryHeartbeat(v.claims, ref, v.clock, extendFor).Err?
            && TryRelease(v.claims, ref, v.clock).Err?
            && TryComplete(v.claims, ref).Err?
  {
    var w := Run(Initial(clock), before);
    ReachableInv(Initial(clock), before);
    assert ClaimOk(w.claims[ref.run], w.issued);
    NeverRevivedAfter(Apply(w, op), after, ref);
  }

  // ----- what a claim row shows

  lemma OwnedStep(w: World, op: Op, r: string)
    requires Inv(w) && r in Apply(w, op).claims && (r in w.claims ==> Owned(w, r))
    ensures Owned(Apply(w, op), r)
  {
    hide ValidOwner, ValidRef;
    var v := Apply(w, op);
    if v.claims[r].status == ClaimClaimed {
      if op.Acquire? && op.run == r && v != w {
        assert v.epochs[|v.epochs| - 1].open;
      } else {
        var i :| 0 <= i < |w.epochs| && w.epochs[i].open && w.epochs[i].ref.run == r;
        assert v.epochs[i].open && v.epochs[i].ref.run == r;
      }
    }
  }

  lemma {:induction false} OwnedAlways(w: World, ops: seq<Op>, r: string)
    requires Inv(w) && (r in w.claims ==> Owned(w, r))
    ensures r in Run(w, ops).claims ==> Owned(Run(w, ops), r)
    decreases |ops|
  {
    hide Inv, Owned, Apply;
    if ops != [] {
      StepKeepsInv(w, ops[0]);
      if r in Apply(w, ops[0]).claims {
        OwnedStep(w, ops[0], r);
      }
      OwnedAlways(Apply(w, ops[0]), ops[1..], r);
    }
  }

  /** In every history a credential is accepted exactly when it is, in every part, the one handed out to
      the epoch now open, and then the row shows that epoch's acquisition, last heartbeat and
      deadline. */
  lemma AcceptedIffOpen(clock: int, ops: seq<Op>, ref: Ref)
    ensures var w := Run(Initial(clock), ops);
            && (Live(w, ref) <==> exists i :: 0 <= i < |w.epochs| && w.epochs[i].open && w.epochs[i].ref == ref)
            && forall i :: 0 <= i < |w.epochs| && w.epochs[i].open ==>
                 w.epochs[i].ref.run in w.claims && Records(w.claims[w.epochs[i].ref.run], w.epochs[i])
  {
    hide Apply;
    var w := Run(Initial(clock), ops);
    ReachableInv(Initial(clock), ops);
    OwnedAlways(Initial(clock), ops, ref.run);
    forall i | 0 <= i < |w.epochs| && w.epochs[i].open
      ensures w.epochs[i].ref.run in w.claims && Records(w.claims[w.epochs[i].ref.run], w.epochs[i])
      ensures Live(w, w.epochs[i].ref)
    {
      assert EpochOk(w, w.epochs[i]);
    }
    if Live(w, ref) {
      var i :| 0 <= i < |w.epochs| && w.epochs[i].open && w.epochs[i].ref.run == ref.run;
      assert w.epochs[i].ref == ref;
    }
  }

  /** A claim keeps the time of its creation, and every operation that changes it leaves its own time. */
  lemma ChangesAreStamped(w: World, op: Op, r: string)
    requires r in Apply(w, op).claims
    ensures var c := Apply(w, op).claims[r];
            if r in w.claims then c.createdAt == w.claims[r].createdAt && (c == w.claims[r] || c.updatedAt == w.clock)
            else c.createdAt == c.updatedAt == w.clock
  {
    hide ValidOwner, ValidRef;
  }

  // ----- a lease lasts as long as was asked for

  /** The operation grants or extends the epoch of ref for the given time. */
  ghost predicate Grants(w: World, op: Op, ref: Ref, lasting: int) {
    || (&& op == Acquire(ref.run, ref.owner, ref.token, lasting) && ref.token !in w.issued
        && TryAcquire(w.claims, ref.run, ref.owner, ref.token, w.clock, lasting).Ok?
        && ref.generation == w.claims[ref.run].generation + 1)
    || (op == Heartbeat(ref, lasting) && TryHeartbeat(w.claims, ref, w.clock, lasting).Ok?)
  }

  /** The holder does nothing, and nobody cleans the claim up. */
  ghost predicate LeavesAlone(op: Op, ref: Ref) {
    op != Release(ref) && op != Complete(ref) && op != Cleanup(ref.run) && !(op.Heartbeat? && op.ref == ref)
  }

  ghost predicate HeldUntil(w: World, ref: Ref, deadline: int) {
    Live(w, ref) && w.claims[ref.run].expiresAt == Some(deadline)
  }

  lemma {:induction false} StaysHeld(w: World, ops: seq<Op>, ref: Ref, deadline: int)
    requires HeldUntil(w, ref, deadline) || w.clock >= deadline
    requires forall i :: 0 <= i < |ops| ==> LeavesAlone(ops[i], ref)
    ensures var v := Run(w, ops); HeldUntil(v, ref, deadline) || v.clock >= deadline
    ensures Live(Run(w, ops), ref) && HeldUntil(w, ref, deadline) && ref.token in w.issued ==>
              HeldUntil(Run(w, ops), ref, deadline)
    decreases |ops|
  {
    if ops != [] {
      var v := Apply(w, ops[0]);
      assert LeavesAlone(ops[0], ref);
      assert forall i :: 0 <= i < |ops[1..]| ==> ops[1..][i] == ops[i + 1];
      OneStaysHeld(w, ops[0], ref, deadline);
      StaysHeld(v, ops[1..], ref, deadline);
      if HeldUntil(w, ref, deadline) && ref.token in w.issued && !Live(v, ref) {
        NeverRevivedAfter(v, ops[1..], ref);
      }
    }
  }

  lemma OneStaysHeld(w: World, op: Op, ref: Ref, deadline: int)
    requires LeavesAlone(op, ref)
    ensures HeldUntil(w, ref, deadline) ==>
              HeldUntil(Apply(w, op), ref, deadline) || (w.clock >= deadline && !Live(Apply(w, op), ref))
    ensures w.clock <= Apply(w, op).clock && w.issued <= Apply(w, op).issued
  {
  }

  /** Over every history in which the holder leaves its claim alone after acquiring or extending it:
      until the time it asked for has passed its credential stays accepted, its heartbeat would extend
      the lease and nobody else can acquire the run; from then on, if nobody has, anybody can, and no
      heartbeat revives it. */
  lemma LeaseLastsAsAsked(clock: int, before: seq<Op>, op: Op, after: seq<Op>, ref: Ref, lasting: int,
                          owner: string, token: string, lease: int)
    requires Grants(Run(Initial(clock), before), op, ref, lasting)
    requires forall i :: 0 <= i < |after| ==> LeavesAlone(after[i], ref)
    requires ValidOwner(owner) && lease > 0
    ensures var w := Run(Initial(clock), before);
            var v := Run(Apply(w, op), after);
            && (v.clock < w.clock + lasting ==> Live(v, ref))
            && (Live(v, ref) ==>
                  && (TryAcquire(v.claims, ref.run, owner, token, v.clock, lease).Ok? <==>
                        v.clock >= w.clock + lasting)
                  && (TryHeartbeat(v.claims, ref, v.clock, lease).Ok? <==>
                        ValidRef(ref) && v.clock < w.clock + lasting))
  {
    hide Apply, Inv, Grants, TryAcquire, TryHeartbeat, Live, HeldUntil, LeavesAlone, ValidOwner;
    var w := Run(Initial(clock), before);
    ReachableInv(Initial(clock), before);
    GrantHolds(w, op, ref, lasting);
    StaysHeld(Apply(w, op), after, ref, w.clock + lasting);
    AcquirableIff(Run(Apply(w, op), after), ref, w.clock + lasting, owner, token, lease);
  }

  lemma GrantHolds(w: World, op: Op, ref: Ref, lasting: int)
    requires Inv(w) && Grants(w, op, ref, lasting)
    ensures HeldUntil(Apply(w, op), ref, w.clock + lasting) && ref.token in Apply(w, op).issued
  {
    hide ValidOwner;
    assert ClaimOk(w.claims[ref.run], w.issued);
  }

  lemma AcquirableIff(v: World, ref: Ref, deadline: int, owner: string, token: string, lease: int)
    requires ValidOwner(owner) && lease > 0
    ensures HeldUntil(v, ref, deadline) ==>
              Live(v, ref) &&
              (TryAcquire(v.claims, ref.run, owner, token, v.clock, lease).Ok? <==> v.clock >= deadline) &&
              (TryHeartbeat(v.claims, ref, v.clock, lease).Ok? <==> ValidRef(ref) && v.clock < deadline)
  {
    hide ValidOwner;
  }

  // ----- a round is a history of single acquisitions

  function RoundOps(order: seq<Key>, owner: string, tokens: seq<string>, lease: int): (ops: seq<Op>)
    requires |order| <= |tokens|
  {
    if order == [] then [] else
      [Acquire(order[0].id, owner, tokens[0], lease)] + RoundOps(order[1..], owner, tokens[1..], lease)
  }

  /** AcquireNext leaves the table that its rows acquired one by one would leave. */
  lemma {:induction false} RoundIsSingleAcquisitions(
      w: World, order: seq<Key>, owner: string, tokens: seq<string>, lease: int)
    requires ValidOwner(owner) && lease > 0 && |order| <= |tokens| && Increasing(order)
    requires forall k :: k in order ==>
               k.id in w.claims && k.at == w.claims[k.id].createdAt && Eligible(w.claims[k.id], w.clock)
    requires forall i :: 0 <= i < |tokens| ==> tokens[i] !in w.issued
    requires forall i, j :: 0 <= i < j < |tokens| ==> tokens[i] != tokens[j]
    ensures Run(w, RoundOps(order, owner, tokens, lease)).claims
         == AcquireAll(w.claims, order, owner, tokens, w.clock, lease)
    decreases |order|
  {
    if order != [] {
      var op := Acquire(order[0].id, owner, tokens[0], lease);
      var v := Apply(w, op);
      assert order[0] in order;
      assert v.claims == w.claims[order[0].id := AcquireClaim(w.claims[order[0].id], owner, tokens[0], w.clock, lease)];
      OtherIds(w.claims, order, 0);
      RoundIsSingleAcquisitions(v, order[1..], owner, tokens[1..], lease);
      var ops := RoundOps(order, owner, tokens, lease);
      assert ops[0] == op && ops[1..] == RoundOps(order[1..], owner, tokens[1..], lease);
    }
  }
}
