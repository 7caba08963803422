/** What programs over the stores mean, on values: operations change a table of rows, claims, values
    and events, and an outermost unit that does not succeed changes nothing. */
module UnitSemantics {
  import opened Base
  import opened Claims
  import opened OutboxRow
  import opened OutboxTable
  import opened MemoryStore
  import opened OutboxStore

  /** What code inside or outside a unit can do to the store. */
  datatype Op =
    | PublishMessage(msg: Message, now: int)
    | AppendEvent(id: string, tenant: string, envelope: Option<string>, now: int)
    | LeaseBatch(worker: string, leaseFor: int, limit: nat, now: int)
    | AckMessage(id: string, worker: string, now: int)
    | FailMessage(id: string, worker: string, now: int, retryIn: int, cause: string)
    | RequeueMessage(id: string, tenant: string, expected: int, now: int)
    | DiscardMessage(id: string, tenant: string, expected: int, now: int)
    | SweepMessages(req: SweepRequest, now: int)
    | WriteClaim(run: string, claim: Claim)
    | DeleteClaim(run: string)
    | ReplaceValues(values: Values)

  /** Unit is a call of Do; Try swallows an error but not a panic. */
  datatype Prog =
    | Skip
    | Call(op: Op)
    | Then(first: Prog, second: Prog)
    | Unit(body: Prog)
    | Try(body: Prog)
    | Fail
    | Panic

  datatype Result = Done | Failed | Panicked

  /** The contents of the store, without objects. */
  datatype Contents = Contents(
    table: Rows, claims: map<string, Claim>, values: Values, events: seq<LoggedEvent>, eventSeq: int)

  // ----- one operation

  /** The operations that address one stored row. */
  predicate Addresses(op: Op) {
    op.AckMessage? || op.FailMessage? || op.RequeueMessage? || op.DiscardMessage?
  }

  function EventOf(op: Op): (e: Event)
    requires Addresses(op)
  {
    match op
    case AckMessage(_, worker, now) => Event.Ack(worker, now)
    case FailMessage(_, worker, now, retryIn, cause) => Event.Fail(worker, now, retryIn, cause)
    case RequeueMessage(_, tenant, expected, now) => Event.Requeue(tenant, expected, now)
    case DiscardMessage(_, tenant, expected, now) => Event.Discard(tenant, expected, now)
  }

  /** Whether the store refuses the operation. */
  predicate Refuses(op: Op, t: Rows) {
    match op
    case PublishMessage(msg, _) => msg.maxAttempts < 1 || msg.maxAttempts > 100
    case AppendEvent(_, _, envelope, _) => envelope.None?
    case SweepMessages(req, _) => !ValidSweep(req)
    case RequeueMessage(id, _, expected, _) => expected < 1 || id !in t || !Applies(t[id], EventOf(op))
    case DiscardMessage(id, _, expected, _) => expected < 1 || id !in t || !Applies(t[id], EventOf(op))
    case AckMessage(id, _, _) => id !in t || !Applies(t[id], EventOf(op))
    case FailMessage(id, _, _, _, _) => id !in t || !Applies(t[id], EventOf(op))
    case _ => false
  }

  ghost function DueIds(t: Rows, now: int): (r: set<string>) {
    set id | id in t && Due(t[id], now)
  }

  /** As many due rows as the limit allows, none younger than a due row left out. */
  ghost predicate OldestDue(t: Rows, now: int, limit: nat, ids: set<string>) {
    && ids <= DueIds(t, now) && |ids| == Min(limit, |DueIds(t, now)|)
    && forall a, b :: a in ids && b in DueIds(t, now) && b !in ids ==> t[a].createdAt <= t[b].createdAt
  }

  ghost function TakenRows(t: Rows, ids: set<string>, e: Event): (after: Rows) {
    map id | id in t :: if id in ids then Applied(t[id], e) else t[id]
  }

  /** A row enqueued unless its dedup key is known. */
  ghost function Enqueued(t: Rows, r: Row): (after: Rows) {
    if DedupKnown(t, r.dedup) then t else t[r.id := r]
  }

  /** What an operation does to the contents. A refused one changes nothing, except that an event
      which cannot be serialized has used up its number. */
  ghost predicate Effect(op: Op, max: int, s: Contents, t: Contents, res: Result) {
    && res == (if Refuses(op, s.table) then Failed else Done)
    && match op
       case AppendEvent(id, tenant, envelope, now) =>
         t == if envelope.None? then s.(eventSeq := s.eventSeq + 1) else
                s.(eventSeq := s.eventSeq + 1,
                   events := s.events + [LoggedEvent(id, tenant, envelope.value, s.eventSeq + 1)],
                   table := Enqueued(s.table, NewRow("obx_" + id, "event:" + id, tenant, envelope.value, max, now)))
       case PublishMessage(msg, now) =>
         t == if Refuses(op, s.table) then s else
                s.(table := Enqueued(s.table, NewRow(msg.id, msg.dedup, msg.tenant, msg.envelope,
                                                     msg.maxAttempts, now)))
       case LeaseBatch(worker, leaseFor, limit, now) =>
         exists ids :: OldestDue(s.table, now, limit, ids) &&
                       t == s.(table := TakenRows(s.table, ids, Event.Take(worker, now, now + leaseFor)))
       case SweepMessages(req, now) =>
         t == if Refuses(op, s.table) || req.dryRun then s else s.(table := Swept(s.table, now, req))
       case WriteClaim(run, claim) => t == s.(claims := s.claims[run := claim])
       case DeleteClaim(run) => t == s.(claims := s.claims - {run})
       case ReplaceValues(values) => t == s.(values := values)
       case _ =>
         t == if Refuses(op, s.table) then s
              else s.(table := s.table[op.id := Applied(s.table[op.id], EventOf(op))])
  }

  // ----- programs

  /** p takes the contents s to t and ends with res. Inside a unit a further unit is its body. An
      outermost unit keeps what its body did if that succeeds, and otherwise leaves s. */
  ghost predicate Runs(p: Prog, inUnit: bool, max: int, s: Contents, t: Contents, res: Result)
    decreases p
  {
    match p
    case Skip => t == s && res == Done
    case Fail => t == s && res == Failed
    case Panic => t == s && res == Panicked
    case Call(op) => Effect(op, max, s, t, res)
    case Then(first, second) =>
      || (res != Done && Runs(first, inUnit, max, s, t, res))
      || exists mid :: Runs(first, inUnit, max, s, mid, Done) && Runs(second, inUnit, max, mid, t, res)
    case Unit(body) =>
      if inUnit || res == Done then Runs(body, true, max, s, t, res)
      else t == s && exists mid :: Runs(body, true, max, s, mid, res)
    case Try(body) =>
      || (res != Failed && Runs(body, inUnit, max, s, t, res))
      || (res == Done && Runs(body, inUnit, max, s, t, Failed))
  }

  /** The results a program can have at all. */
  function Ends(p: Prog): (r: set<Result>)
    decreases p
  {
    match p
    case Skip => {Done}
    case Fail => {Failed}
    case Panic => {Panicked}
    case Call(op) => if CanRefuse(op) then {Done, Failed} else {Done}
    case Then(first, second) => if Done in Ends(first) then (Ends(first) - {Done}) + Ends(second) else Ends(first)
    case Unit(body) => Ends(body)
    case Try(body) => if Failed in Ends(body) then (Ends(body) - {Failed}) + {Done} else Ends(body)
  }

  predicate CanRefuse(op: Op) {
    match op
    case PublishMessage(msg, _) => msg.maxAttempts < 1 || msg.maxAttempts > 100
    case AppendEvent(_, _, envelope, _) => envelope.None?
    case SweepMessages(req, _) => !ValidSweep(req)
    case _ => Addresses(op)
  }

  lemma {:induction false} RunsEnd(p: Prog, inUnit: bool, max: int, s: Contents, t: Contents, res: Result)
    requires Runs(p, inUnit, max, s, t, res)
    ensures res in Ends(p)
    decreases p
  {
    hide Effect;
    match p {
      case Call(op) => RefusalIsPossible(op, max, s, t, res);
      case Then(first, second) =>
        if res != Done && Runs(first, inUnit, max, s, t, res) {
          RunsEnd(first, inUnit, max, s, t, res);
        } else {
          var mid :| Runs(first, inUnit, max, s, mid, Done) && Runs(second, inUnit, max, mid, t, res);
          RunsEnd(first, inUnit, max, s, mid, Done);
          RunsEnd(second, inUnit, max, mid, t, res);
        }
      case Unit(body) =>
        if inUnit || res == Done {
          RunsEnd(body, true, max, s, t, res);
        } else {
          var mid :| Runs(body, true, max, s, mid, res);
          RunsEnd(body, true, max, s, mid, res);
        }
      case Try(body) =>
        if res != Failed && Runs(body, inUnit, max, s, t, res) {
          RunsEnd(body, inUnit, max, s, t, res);
        } else {
          RunsEnd(body, inUnit, max, s, t, Failed);
        }
      case _ =>
    }
  }

  lemma RefusalIsPossible(op: Op, max: int, s: Contents, t: Contents, res: Result)
    requires Effect(op, max, s, t, res)
    ensures res in Ends(Call(op))
  {
  }

  // ----- what units do to programs

  /** The program without its unit marks. */
  function Flat(p: Prog): (q: Prog)
    decreases p
  {
    match p
    case Then(first, second) => Then(Flat(first), Flat(second))
    case Unit(body) => Flat(body)
    case Try(body) => Try(Flat(body))
    case _ => p
  }

  /** Inside a unit the marks of further units mean nothing. */
  lemma {:induction false} NestedUnitsJoin(p: Prog, inUnit: bool, max: int, s: Contents, t: Contents, res: Result)
    ensures Runs(p, true, max, s, t, res) <==> Runs(Flat(p), inUnit, max, s, t, res)
    decreases p
  {
    hide Effect;
    match p {
      case Then(first, second) =>
        NestedUnitsJoin(first, inUnit, max, s, t, res);
        forall mid
          ensures Runs(first, true, max, s, mid, Done) <==> Runs(Flat(first), inUnit, max, s, mid, Done)
          ensures Runs(second, true, max, mid, t, res) <==> Runs(Flat(second), inUnit, max, mid, t, res)
        {
          NestedUnitsJoin(first, inUnit, max, s, mid, Done);
          NestedUnitsJoin(second, inUnit, max, mid, t, res);
        }
      case Unit(body) => NestedUnitsJoin(body, inUnit, max, s, t, res);
      case Try(body) =>
        NestedUnitsJoin(body, inUnit, max, s, t, res);
        NestedUnitsJoin(body, inUnit, max, s, t, Failed);
      case _ =>
    }
  }

  /** A unit is all or nothing: it succeeds with t exactly when its body without unit marks does,
      and it fails or panics exactly when that does, leaving the contents as they were. */
  lemma UnitIsAllOrNothing(body: Prog, max: int, s: Contents, t: Contents, res: Result)
    ensures Runs(Unit(body), false, max, s, t, Done) <==> Runs(Flat(body), false, max, s, t, Done)
    ensures res != Done ==>
              (Runs(Unit(body), false, max, s, t, res) <==>
                 t == s && exists mid :: Runs(Flat(body), false, max, s, mid, res))
  {
    hide Effect;
    NestedUnitsJoin(body, false, max, s, t, Done);
    if res != Done && Runs(Unit(body), false, max, s, t, res) {
      var mid := UndoneBody(body, max, s, t, res);
      NestedUnitsJoin(body, false, max, s, mid, res);
    }
    if res != Done && t == s && exists mid :: Runs(Flat(body), false, max, s, mid, res) {
      var mid :| Runs(Flat(body), false, max, s, mid, res);
      NestedUnitsJoin(body, false, max, s, mid, res);
      UnitUndoes(body, max, s, mid, res);
    }
  }

  lemma UndoneBody(body: Prog, max: int, s: Contents, t: Contents, res: Result) returns (mid: Contents)
    requires res != Done && Runs(Unit(body), false, max, s, t, res)
    ensures t == s && Runs(body, true, max, s, mid, res)
  {
    hide Effect;
    mid :| Runs(body, true, max, s, mid, res);
  }

  lemma UnitCommits(body: Prog, max: int, s: Contents, t: Contents)
    requires Runs(body, true, max, s, t, Done)
    ensures Runs(Unit(body), false, max, s, t, Done)
  {
    hide Effect;
  }

  lemma UnitUndoes(body: Prog, max: int, s: Contents, mid: Contents, res: Result)
    requires res != Done && Runs(body, true, max, s, mid, res)
    ensures Runs(Unit(body), false, max, s, s, res)
  {
    hide Effect;
  }

  /** But only the outermost one: a failure of a joined unit that its caller swallows keeps what
      the joined unit wrote, and the outer unit commits it. */
  lemma SwallowedFailureCommits(body: Prog, max: int, s: Contents, t: Contents)
    ensures Runs(Unit(Try(Unit(body))), false, max, s, t, Done) <==>
              Runs(body, true, max, s, t, Done) || Runs(body, true, max, s, t, Failed)
  {
    hide Effect;
    var inner := Unit(body);
    assert Runs(Unit(Try(inner)), false, max, s, t, Done) <==> Runs(Try(inner), true, max, s, t, Done);
    assert Runs(Try(inner), true, max, s, t, Done) <==>
           Runs(inner, true, max, s, t, Done) || Runs(inner, true, max, s, t, Failed);
  }

  ghost predicate LeaseFree(p: Prog)
    decreases p
  {
    match p
    case Call(op) => !op.LeaseBatch?
    case Then(first, second) => LeaseFree(first) && LeaseFree(second)
    case Unit(body) => LeaseFree(body)
    case Try(body) => LeaseFree(body)
    case _ => true
  }

  /** Without leases, which may choose among equally old rows, contents and result are determined. */
  lemma {:induction false} RunsOnlyOneWay(p: Prog, inUnit: bool, max: int, s: Contents,
                                          t: Contents, res: Result, u: Contents, other: Result)
    requires LeaseFree(p) && Runs(p, inUnit, max, s, t, res) && Runs(p, inUnit, max, s, u, other)
    ensures t == u && res == other
    decreases p
  {
    hide Effect;
    match p {
      case Call(op) => EffectIsOne(op, max, s, t, res, u, other);
      case Then(first, second) =>
        var a, m := FirstPart(p, inUnit, max, s, t, res);
        var b, n := FirstPart(p, inUnit, max, s, u, other);
        RunsOnlyOneWay(first, inUnit, max, s, m, a, n, b);
        if a == Done {
          RunsOnlyOneWay(second, inUnit, max, m, t, res, u, other);
        }
      case Unit(body) =>
        var m :| Runs(body, true, max, s, m, res) && (inUnit || res == Done ==> m == t);
        var n :| Runs(body, true, max, s, n, other) && (inUnit || other == Done ==> n == u);
        RunsOnlyOneWay(body, true, max, s, m, res, n, other);
      case Try(body) =>
        var a := if res != Failed && Runs(body, inUnit, max, s, t, res) then res else Failed;
        var b := if other != Failed && Runs(body, inUnit, max, s, u, other) then other else Failed;
        RunsOnlyOneWay(body, inUnit, max, s, t, a, u, b);
      case _ =>
    }
  }

  lemma EffectIsOne(op: Op, max: int, s: Contents, t: Contents, res: Result, u: Contents, other: Result)
    requires !op.LeaseBatch? && Effect(op, max, s, t, res) && Effect(op, max, s, u, other)
    ensures t == u && res == other
  {
    hide Enqueued, Swept, Applied, Applies, ValidSweep;
  }

  /** How the first part of a sequence ended, and with what contents. */
  lemma FirstPart(p: Prog, inUnit: bool, max: int, s: Contents, t: Contents, res: Result)
    returns (a: Result, m: Contents)
    requires p.Then? && Runs(p, inUnit, max, s, t, res)
    ensures Runs(p.first, inUnit, max, s, m, a)
    ensures if a == Done then Runs(p.second, inUnit, max, m, t, res) else a == res && m == t
  {
    hide Effect;
    if res != Done && Runs(p.first, inUnit, max, s, t, res) {
      a, m := res, t;
    } else {
      a := Done;
      m :| Runs(p.first, inUnit, max, s, m, Done) && Runs(p.second, inUnit, max, m, t, res);
    }
  }
}
