/**
 `nng::http::handler` and the server that takes handlers over and gives them back.  `add_handler` and
 `remove_handler` can fail; the library answers a removal by looking its list up.
 */
module Handlers {
  import opened Bytes

  const NULL: int := 0

  datatype Heap = Heap(live: set<int>, misused: bool)

  function FreeIn(h: Heap, p: int): Heap {
    if p == NULL then h
    else if p in h.live then h.(live := h.live - {p})
    else h.(misused := true)
  }

  class Handler {
    var h: int

    constructor (h: int)
      ensures this.h == h
    {
      this.h := h;
    }

    method MoveAssign(heap: Heap, rhs: Handler) returns (heap': Heap)
      modifies this, rhs
      ensures this == rhs ==> heap' == heap && h == old(h)
      ensures this != rhs ==> heap' == FreeIn(heap, old(h)) && h == old(rhs.h) && rhs.h == NULL
    {
      heap' := heap;
      if this != rhs {
        if h != NULL {
          heap' := FreeIn(heap', h);
        }
        h := rhs.h;
        rhs.h := NULL;
      }
    }

    method Release() returns (out: int)
      modifies this
      ensures out == old(h) && h == NULL
    {
      out := h;
      h := NULL;
    }
  }

  class Server {
    var handlers: set<int>

    constructor ()
      ensures handlers == {}
    {
      handlers := {};
    }

    /** The wrapper is emptied only when the server took the handler. */
    method AddHandler(h: Handler, ok: bool) returns (threw: bool)
      modifies this, h
      ensures threw <==> !ok
      ensures ok ==> handlers == old(handlers) + {old(h.h)} && h.h == NULL
      ensures !ok ==> handlers == old(handlers) && h.h == old(h.h)
    {
      if !ok {
        return true;
      }
      handlers := handlers + {h.h};
      var _ := h.Release();
      return false;
    }

    method RemoveHandler(view: int) returns (removed: Handler?)
      modifies this
      ensures removed == null <==> view !in old(handlers)
      ensures handlers == old(handlers) - {view}
      ensures removed != null ==> fresh(removed) && removed.h == view
    {
      if view !in handlers {
        return null;
      }
      handlers := handlers - {view};
      removed := new Handler(view);
    }
  }

  // ---- Any sequence of operations on wrappers and servers ----

  /** `held` says which server holds a handler. */
  datatype World = World(heap: Heap, vars: map<int, int>, held: map<int, int>, raw: set<int>)

  datatype Op =
    | Default(v: int)
    | Alloc(v: int, p: int)
    | Adopt(v: int, p: int)
    | MoveInit(v: int, w: int)
    | MoveAssign(v: int, w: int)
    | Release(v: int)
    | Destroy(v: int)
    | Add(s: int, v: int, ok: bool)
    | Remove(s: int, v: int, view: int)
    | Shutdown(s: int)

  const NOTHING := World(Heap({}, false), map[], map[], {})

  predicate Holds(x: World, s: int, p: int) { p in x.held && x.held[p] == s }

  function HeldBy(x: World, s: int): set<int> { set p | p in x.held && x.held[p] == s }

  /** A view may point anywhere; a server takes only a handler, never null. */
  predicate Enabled(x: World, op: Op) {
    match op
    case Default(v) => v !in x.vars
    case Alloc(v, p) => v !in x.vars && p != NULL && p !in x.heap.live
    case Adopt(v, p) => v !in x.vars && p in x.raw
    case MoveInit(v, w) => v !in x.vars && w in x.vars
    case MoveAssign(v, w) => v in x.vars && w in x.vars
    case Release(v) => v in x.vars
    case Destroy(v) => v in x.vars
    case Add(s, v, ok) => v in x.vars && (ok ==> x.vars[v] != NULL)
    case Remove(s, v, view) => v !in x.vars
    case Shutdown(s) => true
  }

  function Do(x: World, op: Op): World
    requires Enabled(x, op)
  {
    match op
    case Default(v) => x.(vars := x.vars[v := NULL])
    case Alloc(v, p) => x.(heap := x.heap.(live := x.heap.live + {p}), vars := x.vars[v := p])
    case Adopt(v, p) => x.(vars := x.vars[v := p], raw := x.raw - {p})
    case MoveInit(v, w) => x.(vars := x.vars[v := x.vars[w]][w := NULL])
    case MoveAssign(v, w) =>
      if v == w then x
      else x.(heap := FreeIn(x.heap, x.vars[v]), vars := x.vars[v := x.vars[w]][w := NULL])
    case Release(v) =>
      x.(vars := x.vars[v := NULL], raw := if x.vars[v] == NULL then x.raw else x.raw + {x.vars[v]})
    case Destroy(v) => x.(heap := FreeIn(x.heap, x.vars[v]), vars := x.vars - {v})
    case Add(s, v, ok) =>
      if ok then x.(vars := x.vars[v := NULL], held := x.held[x.vars[v] := s]) else x
    case Remove(s, v, view) =>
      if Holds(x, s, view) then x.(vars := x.vars[v := view], held := x.held - {view}) else x
    case Shutdown(s) =>
      var freed := HeldBy(x, s);
      x.(heap := Heap(x.heap.live - freed, x.heap.misused || !(freed <= x.heap.live)), held := x.held - freed)
  }

  function Step(x: World, op: Op): World {
    if Enabled(x, op) then Do(x, op) else x
  }

  function After(ops: seq<Op>): World {
    if ops == [] then NOTHING else Step(After(ops[..|ops| - 1]), ops[|ops| - 1])
  }

  /** Living variables and servers can be used in every way and with every outcome. */
  lemma NothingForbidden(x: World, v: int, w: int, u: int, s: int, p: int, ok: bool)
    requires v in x.vars && w in x.vars && u !in x.vars
    ensures Enabled(x, MoveAssign(v, w)) && Enabled(x, Release(v)) && Enabled(x, Destroy(v))
    ensures Enabled(x, MoveInit(u, v))
    ensures Enabled(x, Add(s, v, false)) && (x.vars[v] != NULL ==> Enabled(x, Add(s, v, ok)))
    ensures Enabled(x, Remove(s, u, p)) && Enabled(x, Shutdown(s)) && Enabled(x, Default(u))
    ensures (p in x.raw ==> Enabled(x, Adopt(u, p))) && (p != NULL && p !in x.heap.live ==> Enabled(x, Alloc(u, p)))
  {
  }

  // ---- Ownership ----

  datatype Owner = Var(v: int) | Server(s: int) | Caller

  predicate Owns(x: World, o: Owner, p: int) {
    match o
    case Var(v) => v in x.vars && x.vars[v] == p
    case Server(s) => Holds(x, s, p)
    case Caller => p in x.raw
  }

  ghost predicate Linear(x: World) {
    && !x.heap.misused
    && NULL !in x.heap.live
    && (forall v :: v in x.vars && x.vars[v] != NULL ==> x.vars[v] in x.heap.live)
    && x.held.Keys <= x.heap.live && x.raw <= x.heap.live && x.held.Keys !! x.raw
    && (forall v, w :: v in x.vars && w in x.vars && v != w && x.vars[v] != NULL ==> x.vars[v] != x.vars[w])
    && (forall v :: v in x.vars ==> x.vars[v] !in x.held && x.vars[v] !in x.raw)
    && (forall p :: p in x.heap.live ==> p in x.held || p in x.raw || exists v :: Owns(x, Var(v), p))
  }

  lemma OwnersStay(x: World, x': World, v: int, w: int)
    requires Linear(x)
    requires forall u :: u in x.vars && u != v && u != w ==> u in x'.vars && x'.vars[u] == x.vars[u]
    ensures forall p :: p in x.heap.live && p !in x.held && p !in x.raw ==>
                          Owns(x, Var(v), p) || Owns(x, Var(w), p) || exists u :: Owns(x', Var(u), p)
  {
    forall p | p in x.heap.live && p !in x.held && p !in x.raw && !Owns(x, Var(v), p) && !Owns(x, Var(w), p)
      ensures exists u :: Owns(x', Var(u), p)
    {
      var u :| Owns(x, Var(u), p);
      assert Owns(x', Var(u), p);
    }
  }

  lemma WrapperLinear(x: World, op: Op)
    requires Linear(x) && Enabled(x, op)
    requires op.Default? || op.Alloc? || op.Adopt? || op.Release? || op.Destroy?
    ensures Linear(Do(x, op))
  {
    OwnersStay(x, Do(x, op), op.v, op.v);
    assert op.Alloc? || op.Adopt? ==> Owns(Do(x, op), Var(op.v), op.p);
  }

  lemma MoveLinear(x: World, op: Op)
    requires Linear(x) && Enabled(x, op) && (op.MoveInit? || (op.MoveAssign? && op.v != op.w))
    ensures Linear(Do(x, op))
  {
    OwnersStay(x, Do(x, op), op.v, op.w);
    assert Owns(Do(x, op), Var(op.v), x.vars[op.w]);
  }

  lemma ServerLinear(x: World, op: Op)
    requires Linear(x) && Enabled(x, op) && (op.Add? || op.Remove? || op.Shutdown?)
    ensures Linear(Do(x, op))
  {
    var x' := Do(x, op);
    if op.Shutdown? {
      forall p | p in x.heap.live && p !in x.held && p !in x.raw ensures exists u :: Owns(x', Var(u), p) {
        var u :| Owns(x, Var(u), p);
        assert Owns(x', Var(u), p);
      }
    } else {
      OwnersStay(x, x', op.v, op.v);
      assert op.Remove? && Holds(x, op.s, op.view) ==> Owns(x', Var(op.v), op.view);
    }
  }

  /** Over any run, failing additions and removals included, every live handler has exactly one owner. */
  lemma {:induction false} OwnershipIsLinear(ops: seq<Op>)
    ensures Linear(After(ops))
  {
    if ops != [] {
      var x, op := After(ops[..|ops| - 1]), ops[|ops| - 1];
      OwnershipIsLinear(ops[..|ops| - 1]);
      if Enabled(x, op) {
        if op.Add? || op.Remove? || op.Shutdown? {
          ServerLinear(x, op);
        } else if op.MoveInit? || (op.MoveAssign? && op.v != op.w) {
          MoveLinear(x, op);
        } else if !op.MoveAssign? {
          WrapperLinear(x, op);
        }
      }
    }
  }

  /** A pointer can be adopted exactly if it is null or the caller's. */
  lemma AdoptIff(x: World, v: int, p: int)
    requires Linear(x) && v !in x.vars
    ensures Linear(x.(vars := x.vars[v := p], raw := x.raw - {p})) <==> p == NULL || p in x.raw
  {
    var x' := x.(vars := x.vars[v := p], raw := x.raw - {p});
    OwnersStay(x, x', v, v);
    assert v in x'.vars && Owns(x', Var(v), p);
    if p in x.heap.live && p !in x.raw && p !in x.held {
      var u :| Owns(x, Var(u), p);
      assert u != v && u in x'.vars && x'.vars[u] == p;
    }
  }

  /** What `Linear` says, owner by owner. */
  lemma ExactlyOneOwner(x: World, p: int)
    requires Linear(x)
    ensures p in x.heap.live <==> p != NULL && exists o :: Owns(x, o, p)
    ensures forall o, q :: p != NULL && Owns(x, o, p) && Owns(x, q, p) ==> o == q
  {
    if p in x.heap.live {
      assert p in x.held ==> Owns(x, Server(x.held[p]), p);
      assert p in x.raw ==> Owns(x, Caller, p);
    }
  }

  /** Who `p` passes to, if the operation hands it on. */
  function Receiver(x: World, op: Op, p: int): Option<Owner>
    requires Enabled(x, op)
  {
    match op
    case Alloc(v, k) => if k == p then Some(Var(v)) else None
    case Adopt(v, k) => if k == p then Some(Var(v)) else None
    case MoveInit(v, w) => if x.vars[w] == p then Some(Var(v)) else None
    case MoveAssign(v, w) => if v != w && x.vars[w] == p then Some(Var(v)) else None
    case Release(v) => if x.vars[v] == p then Some(Caller) else None
    case Add(s, v, ok) => if ok && x.vars[v] == p then Some(Server(s)) else None
    case Remove(s, v, view) => if view == p && Holds(x, s, p) then Some(Var(v)) else None
    case _ => None
  }

  /** The handlers the operation frees. */
  predicate Frees(x: World, op: Op, p: int)
    requires Enabled(x, op)
  {
    match op
    case MoveAssign(v, w) => v != w && x.vars[v] == p
    case Destroy(v) => x.vars[v] == p
    case Shutdown(s) => Holds(x, s, p)
    case _ => false
  }

  /** Every operation makes, frees and hands on just the handlers it is for; all others stay, with their owners. */
  lemma HandlersAfter(x: World, op: Op, o: Owner, p: int)
    requires Linear(x) && Enabled(x, op) && p != NULL
    ensures p in Do(x, op).heap.live <==> (op.Alloc? && op.p == p) || (p in x.heap.live && !Frees(x, op, p))
    ensures Owns(Do(x, op), o, p) <==>
            if Receiver(x, op, p).Some? then Receiver(x, op, p) == Some(o) else !Frees(x, op, p) && Owns(x, o, p)
  {
  }

  /** Variables begin with their constructor, or with what a server gives back, and end with their destructor. */
  lemma VariablesAfter(x: World, op: Op, u: int)
    requires Enabled(x, op)
    ensures u in Do(x, op).vars <==>
            if op.Shutdown? then u in x.vars
            else if op.Destroy? && op.v == u then false
            else u in x.vars || (op.v == u && (!op.Remove? || Holds(x, op.s, op.view)))
    ensures op.Default? ==> Do(x, op).vars[op.v] == NULL
  {
  }

  /** After `add_handler` the one owner is the server or, when it threw, the wrapper. */
  lemma AddHandsOver(x: World, s: int, v: int, ok: bool)
    requires Linear(x) && Enabled(x, Add(s, v, ok)) && x.vars[v] != NULL
    ensures var x', p := Do(x, Add(s, v, ok)), x.vars[v];
            Linear(x') && forall o :: Owns(x', o, p) <==> o == if ok then Server(s) else Var(v)
  {
    var x' := Do(x, Add(s, v, ok));
    ServerLinear(x, Add(s, v, ok));
    ExactlyOneOwner(x', x.vars[v]);
    assert Owns(x', if ok then Server(s) else Var(v), x.vars[v]);
  }

  /** After `remove_handler` through any view, the new wrapper is the one owner or, when it threw, nothing changed. */
  lemma RemoveHandsBack(x: World, s: int, v: int, view: int)
    requires Linear(x) && Enabled(x, Remove(s, v, view))
    ensures var x' := Do(x, Remove(s, v, view));
            && Linear(x')
            && if Holds(x, s, view) then forall o :: Owns(x', o, view) <==> o == Var(v) else x' == x
  {
    var x' := Do(x, Remove(s, v, view));
    ServerLinear(x, Remove(s, v, view));
    if Holds(x, s, view) {
      ExactlyOneOwner(x', view);
      assert Owns(x', Var(v), view);
    }
  }

  /** Adding a handler and removing it again gives the wrapper back what it had. */
  lemma AddRemove(x: World, s: int, v: int)
    requires Linear(x) && Enabled(x, Add(s, v, true))
    ensures Step(Step(Step(x, Add(s, v, true)), Destroy(v)), Remove(s, v, x.vars[v])) == x
  {
    var p := x.vars[v];
    var x1 := Do(x, Add(s, v, true));
    var x2 := Do(x1, Destroy(v));
    assert x2.vars[v := p] == x.vars;
    assert x2.held - {p} == x.held;
  }
}
