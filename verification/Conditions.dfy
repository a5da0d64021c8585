/** Status conditions: a list keyed by condition type, and the upsert that
    `meta.SetStatusCondition` performs on it. */
module Conditions {
  import opened Options

  datatype Kind =
    | InstanceProvisioned
    | InstanceAllocating
    | InstanceProvisioning
    | InstanceBootstrapping
    | InstanceReady
    | InstanceTerminating
    | InstanceError
    | MachineHealthy
    | NicoFaultRemediation
    | FaultBlockedCreation
    | Foreign(name: string)

  datatype Truth = True | False | Unknown

  /** `since` is LastTransitionTime in ticks; 0 is the zero time. */
  datatype Condition = Condition(kind: Kind, status: Truth, reason: string, message: string, since: int)

  /** One call of setCondition. */
  datatype Op = Op(kind: Kind, status: Truth, reason: string, message: string)

  /** Position of the first condition of a type, or the length if there is none. */
  function Index(cs: seq<Condition>, kind: Kind): (i: nat)
    ensures i <= |cs|
    ensures i < |cs| ==> cs[i].kind == kind
    ensures forall j :: 0 <= j < i ==> cs[j].kind != kind
  {
    if cs == [] || cs[0].kind == kind then 0 else 1 + Index(cs[1..], kind)
  }

  lemma IndexIs(cs: seq<Condition>, kind: Kind, i: nat)
    requires i <= |cs| && (i < |cs| ==> cs[i].kind == kind)
    requires forall j :: 0 <= j < i ==> cs[j].kind != kind
    ensures Index(cs, kind) == i
  {
  }

  function Find(cs: seq<Condition>, kind: Kind): Option<Condition> {
    var i := Index(cs, kind);
    if i < |cs| then Some(cs[i]) else None
  }

  predicate Has(cs: seq<Condition>, kind: Kind, status: Truth) {
    Find(cs, kind).Some? && Find(cs, kind).value.status == status
  }

  function Upsert(cs: seq<Condition>, op: Op, now: int): seq<Condition> {
    var i := Index(cs, op.kind);
    if i == |cs| then
      cs + [Condition(op.kind, op.status, op.reason, op.message, now)]
    else
      var since := if cs[i].status == op.status then cs[i].since else now;
      cs[i := Condition(op.kind, op.status, op.reason, op.message, since)]
  }

  /** A run of setCondition calls, in order. */
  function ApplyOps(cs: seq<Condition>, ops: seq<Op>, now: int): seq<Condition> {
    if ops == [] then cs
    else Upsert(ApplyOps(cs, ops[..|ops| - 1], now), ops[|ops| - 1], now)
  }

  /** The last call that names a type. */
  function LastOp(ops: seq<Op>, kind: Kind): Option<Op> {
    if ops == [] then None
    else if ops[|ops| - 1].kind == kind then Some(ops[|ops| - 1])
    else LastOp(ops[..|ops| - 1], kind)
  }

  ghost predicate UniqueKinds(cs: seq<Condition>) {
    forall i, j :: 0 <= i < j < |cs| ==> cs[i].kind != cs[j].kind
  }

  /** Where types are unique, what a type shows is what any entry of it says. */
  lemma HasByEntry(cs: seq<Condition>, kind: Kind, status: Truth)
    requires forall i, j :: 0 <= i < j < |cs| ==> cs[i].kind != cs[j].kind
    ensures Has(cs, kind, status) <==> exists c :: c in cs && c.kind == kind && c.status == status
  {
    var i := Index(cs, kind);
    if i < |cs| {
      assert cs[i] in cs;
    }
  }

  lemma FindUpsert(cs: seq<Condition>, op: Op, now: int, kind: Kind)
    ensures kind != op.kind ==> Find(Upsert(cs, op, now), kind) == Find(cs, kind)
    ensures Find(Upsert(cs, op, now), op.kind).Some?
    ensures var c := Find(Upsert(cs, op, now), op.kind).value;
            && Op(c.kind, c.status, c.reason, c.message) == op
            && c.since == if Has(cs, op.kind, op.status) then Find(cs, op.kind).value.since else now
  {
    var cs' := Upsert(cs, op, now);
    var j, q := Index(cs, kind), Index(cs, op.kind);
    IndexIs(cs', op.kind, q);
    if kind != op.kind {
      IndexIs(cs', kind, if j == |cs| then |cs'| else j);
    }
  }

  /** What a run of calls leaves at a type: the last call naming it, or the old entry untouched. */
  lemma {:induction false} FindApplyOps(cs: seq<Condition>, ops: seq<Op>, now: int, kind: Kind)
    ensures LastOp(ops, kind).None? ==> Find(ApplyOps(cs, ops, now), kind) == Find(cs, kind)
    ensures LastOp(ops, kind).Some? ==>
              && Find(ApplyOps(cs, ops, now), kind).Some?
              && var c := Find(ApplyOps(cs, ops, now), kind).value;
                 Some(Op(c.kind, c.status, c.reason, c.message)) == LastOp(ops, kind)
  {
    if ops != [] {
      var init := ops[..|ops| - 1];
      FindApplyOps(cs, init, now, kind);
      FindUpsert(ApplyOps(cs, init, now), ops[|ops| - 1], now, kind);
    }
  }

  lemma {:induction false} ApplyOpsAppend(cs: seq<Condition>, a: seq<Op>, b: seq<Op>, now: int)
    ensures ApplyOps(cs, a + b, now) == ApplyOps(ApplyOps(cs, a, now), b, now)
  {
    if b == [] {
      assert a + b == a;
    } else {
      assert (a + b)[..|a + b| - 1] == a + b[..|b| - 1];
      ApplyOpsAppend(cs, a, b[..|b| - 1], now);
    }
  }

  /** Short runs written out. */
  lemma ApplyOne(cs: seq<Condition>, a: Op, now: int)
    ensures ApplyOps(cs, [a], now) == Upsert(cs, a, now)
  {
    assert [a][..0] == [];
  }

  lemma ApplyTwo(cs: seq<Condition>, a: Op, b: Op, now: int)
    ensures ApplyOps(cs, [a, b], now) == Upsert(Upsert(cs, a, now), b, now)
  {
    ApplyOne(cs, a, now);
    assert [a, b][..1] == [a];
  }

  lemma ApplyThree(cs: seq<Condition>, a: Op, b: Op, c: Op, now: int)
    ensures ApplyOps(cs, [a, b, c], now) == Upsert(Upsert(Upsert(cs, a, now), b, now), c, now)
  {
    ApplyTwo(cs, a, b, now);
    assert [a, b, c][..2] == [a, b];
  }

  lemma {:induction false} LastOpAppend(a: seq<Op>, b: seq<Op>, kind: Kind)
    ensures LastOp(a + b, kind) == if LastOp(b, kind).Some? then LastOp(b, kind) else LastOp(a, kind)
  {
    if b == [] {
      assert a + b == a;
    } else {
      assert (a + b)[..|a + b| - 1] == a + b[..|b| - 1];
      LastOpAppend(a, b[..|b| - 1], kind);
    }
  }

  lemma {:induction false} LastOpShort(ops: seq<Op>, kind: Kind)
    requires |ops| <= 3
    ensures LastOp(ops, kind) ==
            if |ops| > 2 && ops[2].kind == kind then Some(ops[2])
            else if |ops| > 1 && ops[1].kind == kind then Some(ops[1])
            else if |ops| > 0 && ops[0].kind == kind then Some(ops[0])
            else None
  {
    if ops != [] {
      LastOpShort(ops[..|ops| - 1], kind);
    }
  }

  lemma {:induction false} ApplyOpsKeepsUniqueKinds(cs: seq<Condition>, ops: seq<Op>, now: int)
    requires UniqueKinds(cs)
    ensures UniqueKinds(ApplyOps(cs, ops, now))
  {
    if ops != [] {
      ApplyOpsKeepsUniqueKinds(cs, ops[..|ops| - 1], now);
    }
  }

  // ---------- repeating a run of calls ----------

  /** Calls that name the same type ask for the same status. */
  ghost predicate Consistent(ops: seq<Op>) {
    forall i, j :: 0 <= i < |ops| && 0 <= j < |ops| && ops[i].kind == ops[j].kind ==> ops[i].status == ops[j].status
  }

  /** Every call asks for the status that a table gives to its type. */
  ghost predicate Follows(ops: seq<Op>, table: Kind -> Option<Truth>) {
    forall i :: 0 <= i < |ops| ==> table(ops[i].kind) == Some(ops[i].status)
  }

  lemma FollowsAppend(a: seq<Op>, b: seq<Op>, table: Kind -> Option<Truth>)
    requires Follows(a, table) && Follows(b, table)
    ensures Follows(a + b, table)
  {
  }

  lemma FollowsIsConsistent(ops: seq<Op>, table: Kind -> Option<Truth>)
    requires Follows(ops, table)
    ensures Consistent(ops)
  {
    forall i, j | 0 <= i < |ops| && 0 <= j < |ops| && ops[i].kind == ops[j].kind
      ensures ops[i].status == ops[j].status
    {
      assert Some(ops[i].status) == Some(ops[j].status);
    }
  }

  /** Same types, statuses and transition times position by position; the
      text may differ only at the first entry of a type. */
  ghost predicate SameShape(a: seq<Condition>, b: seq<Condition>) {
    && |a| == |b|
    && forall i :: 0 <= i < |a| ==>
         && a[i].kind == b[i].kind && a[i].status == b[i].status && a[i].since == b[i].since
         && (a[i] == b[i] || i == Index(b, b[i].kind))
  }

  lemma {:induction false} OpsReachTheirStatus(cs: seq<Condition>, ops: seq<Op>, now: int, k: nat)
    requires Consistent(ops) && k < |ops|
    ensures Has(ApplyOps(cs, ops, now), ops[k].kind, ops[k].status)
  {
    FindApplyOps(cs, ops, now, ops[k].kind);
    LastOpIsMember(ops, k);
  }

  lemma {:induction false} LastOpIsMember(ops: seq<Op>, k: nat)
    requires k < |ops|
    ensures LastOp(ops, ops[k].kind).Some? && LastOp(ops, ops[k].kind).value in ops
    ensures LastOp(ops, ops[k].kind).value.kind == ops[k].kind
  {
    if ops[|ops| - 1].kind != ops[k].kind {
      assert k < |ops| - 1;
      LastOpIsMember(ops[..|ops| - 1], k);
    }
  }

  lemma UpsertKeepsShape(a: seq<Condition>, b: seq<Condition>, op: Op, now: int)
    requires SameShape(a, b) && Has(b, op.kind, op.status)
    ensures SameShape(Upsert(a, op, now), b)
  {
    assert Index(a, op.kind) == Index(b, op.kind);
  }

  lemma {:induction false} SecondPassKeepsShape(cs: seq<Condition>, ops: seq<Op>, n: nat, now: int)
    requires n <= |ops|
    requires forall k :: 0 <= k < |ops| ==> Has(cs, ops[k].kind, ops[k].status)
    ensures SameShape(ApplyOps(cs, ops[..n], now), cs)
  {
    if n > 0 {
      SecondPassKeepsShape(cs, ops, n - 1, now);
      assert ops[..n][..n - 1] == ops[..n - 1];
      UpsertKeepsShape(ApplyOps(cs, ops[..n - 1], now), cs, ops[n - 1], now);
    }
  }

  /** Replaying a consistent run of calls, at any later time, changes nothing:
      not even a transition time, although one type may be written twice. */
  lemma OpsSettle(cs: seq<Condition>, ops: seq<Op>, now: int, later: int)
    requires Consistent(ops)
    ensures ApplyOps(ApplyOps(cs, ops, now), ops, later) == ApplyOps(cs, ops, now)
  {
    var once := ApplyOps(cs, ops, now);
    var twice := ApplyOps(once, ops, later);
    forall k | 0 <= k < |ops| ensures Has(once, ops[k].kind, ops[k].status) {
      OpsReachTheirStatus(cs, ops, now, k);
    }
    SecondPassKeepsShape(once, ops, |ops|, later);
    assert ops[..|ops|] == ops;
    forall i | 0 <= i < |once| ensures twice[i] == once[i] {
      var kind := once[i].kind;
      if i == Index(once, kind) {
        FindApplyOps(cs, ops, now, kind);
        FindApplyOps(once, ops, later, kind);
        assert Index(twice, kind) == i;
      }
    }
  }
}
