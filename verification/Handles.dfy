/**
 `nng::socket` and `nng::ctx`: wrappers of a numeric handle whose close can fail.  The two classes have
 the same special members; `Handle` stands for either.
 */
module Handles {
  import opened Bytes

  const NONE: int := 0

  /** What closing returned: success, that the handle was closed already, or another error. */
  datatype Close = Closed | AlreadyClosed | Failed

  /** An error other than "already closed" leaves the handle open; zero is never closed. */
  predicate Answers(open: set<int>, id: int, r: Close) {
    id != NONE ==> (id in open ==> r != AlreadyClosed) && (id !in open ==> r != Closed)
  }

  function CloseOf(open: set<int>, id: int, r: Close): set<int> {
    if id != NONE && r == Closed then open - {id} else open
  }

  datatype Result = Result(open: set<int>, lhs: int, rhs: int, threw: bool)

  function MoveAssigned(open: set<int>, lhs: int, rhs: int, r: Close): Result {
    if lhs != NONE && r == Failed then Result(open, lhs, rhs, true)
    else Result(CloseOf(open, lhs, r), rhs, NONE, false)
  }

  class Handle {
    var id: int

    constructor (id: int)
      ensures this.id == id
    {
      this.id := id;
    }

    constructor Move(rhs: Handle)
      modifies rhs
      ensures id == old(rhs.id) && rhs.id == NONE
    {
      id := rhs.id;
      new;
      rhs.id := NONE;
    }

    /** `r` is what the one call that closes returns. */
    method MoveAssign(open: set<int>, rhs: Handle, r: Close) returns (open': set<int>, threw: bool)
      requires Answers(open, id, r)
      modifies this, rhs
      ensures this == rhs ==> open' == open && !threw && id == old(id)
      ensures this != rhs ==> Result(open', id, rhs.id, threw) == MoveAssigned(open, old(id), old(rhs.id), r)
    {
      open', threw := open, false;
      if this != rhs {
        if id != NONE {
          if r == Closed {
            open' := open' - {id};
          }
          if r != Closed && r != AlreadyClosed {
            return open', true;
          }
        }
        id := rhs.id;
        rhs.id := NONE;
      }
    }

    method Release() returns (out: int)
      modifies this
      ensures out == old(id) && id == NONE
    {
      out := id;
      id := NONE;
    }
  }

  // ---- Any sequence of operations ----

  /** Handles open now, handles ever issued, wrappers, and handles the caller took out with `release`. */
  datatype World = World(open: set<int>, issued: set<int>, vars: map<int, int>, raw: set<int>)

  datatype Op =
    | Default(v: int)
    | Open(v: int, id: int)
    | Adopt(v: int, id: int)
    | MoveInit(v: int, w: int)
    | MoveAssign(v: int, w: int, r: Close)
    | Release(v: int)
    | Destroy(v: int, r: Close)
    | CloseOutside(id: int)

  const NOTHING := World({}, {}, map[], {})

  /** The library numbers its handles from one and gives no number out twice. */
  predicate Enabled(x: World, op: Op) {
    match op
    case Default(v) => v !in x.vars
    case Open(v, id) => v !in x.vars && id != NONE && id !in x.issued
    case Adopt(v, id) => v !in x.vars && id in x.raw
    case MoveInit(v, w) => v !in x.vars && w in x.vars
    case MoveAssign(v, w, r) => v in x.vars && w in x.vars && Answers(x.open, x.vars[v], r)
    case Release(v) => v in x.vars
    case Destroy(v, r) => v in x.vars && Answers(x.open, x.vars[v], r)
    case CloseOutside(id) => id in x.open
  }

  function Do(x: World, op: Op): World
    requires Enabled(x, op)
  {
    match op
    case Default(v) => x.(vars := x.vars[v := NONE])
    case Open(v, id) => x.(open := x.open + {id}, issued := x.issued + {id}, vars := x.vars[v := id])
    case Adopt(v, id) => x.(vars := x.vars[v := id], raw := x.raw - {id})
    case MoveInit(v, w) => x.(vars := x.vars[v := x.vars[w]][w := NONE])
    case MoveAssign(v, w, r) =>
      if v == w then x
      else
        var y := MoveAssigned(x.open, x.vars[v], x.vars[w], r);
        x.(open := y.open, vars := x.vars[v := y.lhs][w := y.rhs])
    case Release(v) =>
      x.(vars := x.vars[v := NONE], raw := if x.vars[v] == NONE then x.raw else x.raw + {x.vars[v]})
    case Destroy(v, r) => x.(open := CloseOf(x.open, x.vars[v], r), vars := x.vars - {v})
    case CloseOutside(id) => x.(open := x.open - {id})
  }

  function Step(x: World, op: Op): World {
    if Enabled(x, op) then Do(x, op) else x
  }

  function After(ops: seq<Op>): World {
    if ops == [] then NOTHING else Step(After(ops[..|ops| - 1]), ops[|ops| - 1])
  }

  /** Living variables can be used in every way, and every close may fail. */
  lemma NothingForbidden(x: World, v: int, w: int, u: int, id: int)
    requires v in x.vars && w in x.vars && u !in x.vars
    ensures Enabled(x, MoveAssign(v, w, Failed)) && Enabled(x, Destroy(v, Failed)) && Enabled(x, Release(v))
    ensures var r := if x.vars[v] in x.open then Closed else AlreadyClosed;
            Enabled(x, MoveAssign(v, w, r)) && Enabled(x, Destroy(v, r))
    ensures Enabled(x, MoveInit(u, v)) && Enabled(x, Default(u)) && (id in x.raw ==> Enabled(x, Adopt(u, id)))
    ensures (id != NONE && id !in x.issued ==> Enabled(x, Open(u, id)))
    ensures (id in x.open ==> Enabled(x, CloseOutside(id)))
  {
  }

  // ---- Ownership ----

  datatype Owner = Var(v: int) | Caller

  predicate Owns(x: World, o: Owner, id: int) {
    match o
    case Var(v) => v in x.vars && x.vars[v] == id
    case Caller => id in x.raw
  }

  ghost predicate Separate(x: World) {
    && NONE !in x.issued && x.open <= x.issued && x.raw <= x.issued
    && (forall v :: v in x.vars && x.vars[v] != NONE ==> x.vars[v] in x.issued && x.vars[v] !in x.raw)
    && (forall v, w :: v in x.vars && w in x.vars && v != w && x.vars[v] != NONE ==> x.vars[v] != x.vars[w])
  }

  lemma {:induction false} OwnersAreSeparate(ops: seq<Op>)
    ensures Separate(After(ops))
  {
    if ops != [] {
      OwnersAreSeparate(ops[..|ops| - 1]);
    }
  }

  /** Whatever is done and whichever closes fail, no handle has two owners. */
  lemma AtMostOneOwner(ops: seq<Op>, id: int, o: Owner, q: Owner)
    requires id != NONE && Owns(After(ops), o, id) && Owns(After(ops), q, id)
    ensures o == q
  {
    OwnersAreSeparate(ops);
  }

  /**
   Move assignment throws exactly when a close fails; it then changes nothing, and else it has closed what it
   replaced.
   */
  lemma MoveAssignThrowsOrReplaces(x: World, v: int, w: int, r: Close)
    requires Separate(x) && Enabled(x, MoveAssign(v, w, r)) && v != w
    ensures var x' := Do(x, MoveAssign(v, w, r));
            if r == Failed && x.vars[v] != NONE
            then x' == x
            else && x.vars[v] !in x'.open && x'.vars == x.vars[v := x.vars[w]][w := NONE]
                 && (forall id :: id != x.vars[v] ==> (id in x'.open <==> id in x.open))
  {
    if r == Failed && x.vars[v] != NONE {
      assert x.vars[v := x.vars[v]][w := x.vars[w]] == x.vars;
    }
  }

  /** A handle can be adopted exactly if it is zero, the caller's, or one that was issued and that nobody owns. */
  lemma AdoptIff(x: World, v: int, id: int)
    requires Separate(x) && v !in x.vars
    ensures Separate(x.(vars := x.vars[v := id], raw := x.raw - {id})) <==>
            id == NONE || id in x.raw || (id in x.issued && forall o :: !Owns(x, o, id))
  {
    var x' := x.(vars := x.vars[v := id], raw := x.raw - {id});
    assert v in x'.vars && x'.vars[v] == id;
    if o :| Owns(x, o, id) {
      if o.Var? && id != NONE {
        assert o.v in x'.vars && o.v != v && x'.vars[o.v] == id;
      }
    } else {
      forall u | u in x.vars ensures x.vars[u] != id {
        assert !Owns(x, Var(u), id);
      }
    }
  }

  /** Who `id` passes to, if the operation hands it on. */
  function Receiver(x: World, op: Op, id: int): Option<Owner>
    requires Enabled(x, op)
  {
    match op
    case Open(v, k) => if k == id then Some(Var(v)) else None
    case Adopt(v, k) => if k == id then Some(Var(v)) else None
    case MoveInit(v, w) => if x.vars[w] == id then Some(Var(v)) else None
    case MoveAssign(v, w, r) =>
      if v != w && x.vars[w] == id && (r != Failed || x.vars[v] == NONE) then Some(Var(v)) else None
    case Release(v) => if x.vars[v] == id then Some(Caller) else None
    case _ => None
  }

  /** The wrapper of `id` is overwritten or ends. */
  predicate Gives(x: World, op: Op, id: int)
    requires Enabled(x, op)
  {
    match op
    case MoveAssign(v, w, r) => v != w && x.vars[v] == id && r != Failed
    case Destroy(v, _) => x.vars[v] == id
    case _ => false
  }

  /** Every operation hands on or gives up just the handle it is for; all others stay with their owners. */
  lemma OwnersAfter(x: World, op: Op, o: Owner, id: int)
    requires Separate(x) && Enabled(x, op) && id != NONE
    ensures Owns(Do(x, op), o, id) <==>
            if Receiver(x, op, id).Some? then Receiver(x, op, id) == Some(o) else !Gives(x, op, id) && Owns(x, o, id)
  {
  }

  /** Variables begin with their constructor and end with their destructor. */
  lemma VariablesAfter(x: World, op: Op, u: int)
    requires Enabled(x, op)
    ensures u in Do(x, op).vars <==>
            if op.CloseOutside? then u in x.vars
            else if op.Destroy? && op.v == u then false
            else u in x.vars || op.v == u
    ensures op.Default? ==> Do(x, op).vars[op.v] == NONE
  {
  }

  // ---- Which handles are open ----

  predicate Opens(x: World, op: Op, id: int) {
    Enabled(x, op) && op.Open? && op.id == id
  }

  /** A close that succeeds, in an assignment, in a destructor, or outside the wrappers. */
  predicate Closes(x: World, op: Op, id: int) {
    && Enabled(x, op) && id != NONE
    && match op
       case MoveAssign(v, w, r) => v != w && x.vars[v] == id && r == Closed
       case Destroy(v, r) => x.vars[v] == id && r == Closed
       case CloseOutside(k) => k == id
       case _ => false
  }

  lemma OpenStep(x: World, op: Op, id: int)
    requires Separate(x)
    ensures id in Step(x, op).open <==> Opens(x, op, id) || (id in x.open && !Closes(x, op, id))
    ensures id in x.issued ==> id in Step(x, op).issued && !Opens(x, op, id)
  {
  }

  predicate OpensAt(ops: seq<Op>, i: int, id: int) { 0 <= i < |ops| && Opens(After(ops[..i]), ops[i], id) }
  predicate ClosesAt(ops: seq<Op>, i: int, id: int) { 0 <= i < |ops| && Closes(After(ops[..i]), ops[i], id) }

  lemma {:induction false} OpenFrom(ops: seq<Op>, i: nat, id: int)
    requires i <= |ops| && id in After(ops[..i]).open
    ensures id in After(ops).issued
    ensures id in After(ops).open <==> forall k :: i <= k ==> !ClosesAt(ops, k, id)
  {
    OwnersAreSeparate(ops[..i]);
    if i == |ops| {
      assert ops[..i] == ops;
    } else {
      var n := |ops| - 1;
      OwnersAreSeparate(ops[..n]);
      assert ops[..n][..i] == ops[..i];
      OpenFrom(ops[..n], i, id);
      OpenStep(After(ops[..n]), ops[n], id);
      forall k | k < n ensures ClosesAt(ops[..n], k, id) <==> ClosesAt(ops, k, id) {
        if 0 <= k { assert ops[..n][..k] == ops[..k]; }
      }
      assert id in After(ops).open ==> !ClosesAt(ops, n, id);
      assert ClosesAt(ops, n, id) || (id in After(ops).open <==> id in After(ops[..n]).open);
    }
  }

  lemma {:induction false} OpenWasOpened(ops: seq<Op>, id: int) returns (i: nat)
    requires id in After(ops).open
    ensures OpensAt(ops, i, id)
  {
    var n := |ops| - 1;
    OwnersAreSeparate(ops[..n]);
    OpenStep(After(ops[..n]), ops[n], id);
    if OpensAt(ops, n, id) {
      i := n;
    } else {
      i := OpenWasOpened(ops[..n], id);
      assert ops[..n][..i] == ops[..i];
    }
  }

  /** A handle is open if and only if some operation opened it and none closed it afterwards. */
  lemma OpenExactly(ops: seq<Op>, id: int)
    ensures id in After(ops).open <==> exists i :: OpensAt(ops, i, id) && forall k :: i < k ==> !ClosesAt(ops, k, id)
  {
    if id in After(ops).open {
      var i := OpenWasOpened(ops, id);
      OpensThenOpen(ops, i, id);
    }
    if i :| OpensAt(ops, i, id) && forall k :: i < k ==> !ClosesAt(ops, k, id) {
      OpensThenOpen(ops, i, id);
    }
  }

  lemma OpensThenOpen(ops: seq<Op>, i: int, id: int)
    requires OpensAt(ops, i, id)
    ensures id in After(ops).open <==> forall k :: i < k ==> !ClosesAt(ops, k, id)
  {
    assert ops[..i + 1][..i] == ops[..i];
    OwnersAreSeparate(ops[..i]);
    OpenStep(After(ops[..i]), ops[i], id);
    OpenFrom(ops, i + 1, id);
  }

  /** A handle somebody owns is open, unless it was closed outside the wrappers. */
  lemma {:induction false} OwnedIsOpen(ops: seq<Op>, o: Owner, id: int)
    requires id != NONE && Owns(After(ops), o, id)
    requires forall op :: op in ops ==> op != CloseOutside(id)
    ensures id in After(ops).open
  {
    if ops != [] {
      var n := |ops| - 1;
      var x, op := After(ops[..n]), ops[n];
      assert op in ops && forall p :: p in ops[..n] ==> p in ops;
      OwnersAreSeparate(ops[..n]);
      OpenStep(x, op, id);
      if Enabled(x, op) {
        OwnersAfter(x, op, o, id);
        if !Opens(x, op, id) {
          var q := OwnerBefore(x, op, o, id);
          OwnedIsOpen(ops[..n], q, id);
        }
      } else {
        OwnedIsOpen(ops[..n], o, id);
      }
    }
  }

  /** Whoever owns a handle that was not just opened has it from somebody, and it was not closed on the way. */
  lemma OwnerBefore(x: World, op: Op, o: Owner, id: int) returns (q: Owner)
    requires Separate(x) && Enabled(x, op) && id != NONE && Owns(Do(x, op), o, id) && !Opens(x, op, id)
    ensures Owns(x, q, id) && (Closes(x, op, id) ==> op == CloseOutside(id))
  {
    OwnersAfter(x, op, o, id);
    match op
    case Adopt(_, _) => q := if op.id == id then Caller else o;
    case MoveInit(_, w) => q := if x.vars[w] == id then Var(w) else o;
    case MoveAssign(v, w, r) => q := if Receiver(x, op, id).Some? then Var(w) else o;
    case Release(v) => q := if x.vars[v] == id then Var(v) else o;
    case _ => q := o;
  }

  // ---- What a destructor loses ----

  ghost predicate Orphan(x: World, id: int) {
    id in x.open && forall o :: !Owns(x, o, id)
  }

  /** A destructor cannot throw and drops the handle whatever the close said. */
  predicate Abandons(x: World, op: Op, id: int) {
    Enabled(x, op) && op.Destroy? && op.r == Failed && x.vars[op.v] == id && id in x.open
  }

  predicate Dropped(x: World, id: int) {
    id in x.issued && id !in x.raw && forall v :: v in x.vars ==> x.vars[v] != id
  }

  lemma DroppedStays(x: World, op: Op, id: int)
    requires Separate(x) && id != NONE && (Dropped(x, id) || Abandons(x, op, id))
    ensures Dropped(Step(x, op), id)
  {
  }

  lemma {:induction false} AbandonedIsDropped(ops: seq<Op>, id: int, i: nat)
    requires i < |ops| && Abandons(After(ops[..i]), ops[i], id)
    ensures id != NONE && Dropped(After(ops), id)
  {
    var n := |ops| - 1;
    OwnersAreSeparate(ops[..n]);
    if i < n {
      assert ops[..n][..i] == ops[..i];
      AbandonedIsDropped(ops[..n], id, i);
    }
    DroppedStays(After(ops[..n]), ops[n], id);
  }

  lemma OrphanBefore(x: World, op: Op, id: int)
    requires Separate(x) && Orphan(Step(x, op), id)
    ensures Orphan(x, id) || Abandons(x, op, id)
  {
    var x' := Step(x, op);
    if Enabled(x, op) {
      assert !Owns(x', Caller, id);
      if op.Open? || op.Adopt? || op.MoveInit? || op.MoveAssign? { assert !Owns(x', Var(op.v), id); }
      forall o | Owns(x, o, id) ensures Abandons(x, op, id) {
        match o
        case Caller =>
        case Var(v) =>
          assert !Owns(x', Var(v), id);
      }
    }
  }

  lemma {:induction false} OrphanWasAbandoned(ops: seq<Op>, id: int) returns (i: nat)
    requires Orphan(After(ops), id)
    ensures i < |ops| && Abandons(After(ops[..i]), ops[i], id)
  {
    var n := |ops| - 1;
    OwnersAreSeparate(ops[..n]);
    OrphanBefore(After(ops[..n]), ops[n], id);
    if Abandons(After(ops[..n]), ops[n], id) {
      i := n;
    } else {
      i := OrphanWasAbandoned(ops[..n], id);
      assert ops[..n][..i] == ops[..i];
    }
  }

  predicate AbandonsAt(ops: seq<Op>, i: int, id: int) { 0 <= i < |ops| && Abandons(After(ops[..i]), ops[i], id) }

  /** A handle is open with no owner if and only if a destructor's close failed on it and nobody closed it since. */
  lemma OrphansExactly(ops: seq<Op>, id: int)
    ensures Orphan(After(ops), id)
            <==> exists i :: AbandonsAt(ops, i, id) && forall k :: i < k ==> !ClosesAt(ops, k, id)
  {
    if Orphan(After(ops), id) {
      var i := OrphanWasAbandoned(ops, id);
      AbandonedIsOpen(ops, i, id);
      assert AbandonsAt(ops, i, id);
    }
    if i :| AbandonsAt(ops, i, id) && forall k :: i < k ==> !ClosesAt(ops, k, id) {
      AbandonedIsDropped(ops, id, i);
      AbandonedIsOpen(ops, i, id);
    }
  }

  lemma AbandonedIsOpen(ops: seq<Op>, i: int, id: int)
    requires AbandonsAt(ops, i, id)
    ensures id in After(ops).open <==> forall k :: i < k ==> !ClosesAt(ops, k, id)
  {
    assert ops[..i + 1][..i] == ops[..i];
    OwnersAreSeparate(ops[..i]);
    OpenStep(After(ops[..i]), ops[i], id);
    OpenFrom(ops, i + 1, id);
  }
}
