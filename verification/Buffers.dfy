/**
 `nng::buffer`: a pointer and the size it was allocated with, over a heap in which every block must be
 freed once and with its own size.

 The functions below say what each special member does to the heap and to the wrapper; the class does
 it in place, and `World` runs any sequence of them over any set of variables.
 */
module Buffers {
  import opened Bytes

  const NULL: int := 0

  datatype Buf = Buf(d: int, s: nat)

  const EMPTY := Buf(NULL, 0)

  /** Live blocks with their contents; `misused` records a wrong free or a copy through a wild pointer. */
  datatype Heap = Heap(live: map<int, Bytes>, misused: bool)

  /** What `nng_alloc` returned: null, or an unused block of the size asked for with arbitrary contents. */
  datatype Grant = Grant(p: int, junk: Bytes)

  predicate Grants(h: Heap, n: nat, g: Grant) {
    g.p == NULL || (g.p !in h.live && |g.junk| == n)
  }

  function Allocate(h: Heap, g: Grant): Heap {
    if g.p == NULL then h else h.(live := h.live[g.p := g.junk])
  }

  function Free(h: Heap, b: Buf): Heap {
    if b.d == NULL then h
    else if b.d in h.live && |h.live[b.d]| == b.s then h.(live := h.live - {b.d})
    else h.(misused := true)
  }

  function Memcpy(h: Heap, to: int, from: int, n: nat): Heap {
    if n == 0 then h
    else if to in h.live && from in h.live && n <= |h.live[to]| && n <= |h.live[from]|
    then h.(live := h.live[to := h.live[from][..n] + h.live[to][n..]])
    else h.(misused := true)
  }

  // ---- The special members on values ----

  datatype Result = Result(heap: Heap, buf: Buf, threw: bool)

  function Sized(h: Heap, n: nat, g: Grant): Result {
    if g.p == NULL then Result(h, EMPTY, true) else Result(Allocate(h, g), Buf(g.p, n), false)
  }

  function Copied(h: Heap, rhs: Buf, g: Grant): Result {
    var r := Sized(h, rhs.s, g);
    if r.threw then r else r.(heap := Memcpy(r.heap, r.buf.d, rhs.d, rhs.s))
  }

  function CopyAssigned(h: Heap, b: Buf, rhs: Buf, g: Grant): Result {
    if b.s == rhs.s then Result(Memcpy(h, b.d, rhs.d, b.s), b, false)
    else
      var r := Sized(Free(h, b), rhs.s, g);
      if r.threw then r else r.(heap := Memcpy(r.heap, r.buf.d, rhs.d, rhs.s))
  }

  /** The wrapper as an object; `rhs` may be the same object. */
  class Buffer {
    var d: int
    var s: nat

    constructor Default()
      ensures View() == EMPTY
    {
      d, s := NULL, 0;
    }

    constructor Move(rhs: Buffer)
      modifies rhs
      ensures View() == old(rhs.View()) && rhs.View() == EMPTY
    {
      d, s := rhs.d, rhs.s;
      new;
      rhs.d, rhs.s := NULL, 0;
    }

    function View(): Buf
      reads this
    {
      Buf(d, s)
    }

    /** The constructor of a given size; null stands for the exception. */
    static method OfSize(h: Heap, n: nat, g: Grant) returns (h': Heap, made: Buffer?)
      ensures made == null <==> g.p == NULL
      ensures made == null ==> h' == h
      ensures made != null ==> fresh(made) && made.View() == Buf(g.p, n) && h' == Allocate(h, g)
    {
      if g.p == NULL {
        return h, null;
      }
      h' := Allocate(h, g);
      made := new Buffer.Default();
      made.d, made.s := g.p, n;
    }

    /** The copy constructor allocates the size of `rhs` and copies its contents. */
    static method CopyOf(h: Heap, rhs: Buffer, g: Grant) returns (h': Heap, made: Buffer?)
      ensures made == null <==> g.p == NULL
      ensures made == null ==> h' == h
      ensures made != null ==> fresh(made) && Result(h', made.View(), false) == Copied(h, rhs.View(), g)
    {
      h', made := OfSize(h, rhs.s, g);
      if made != null {
        h' := Memcpy(h', made.d, rhs.d, rhs.s);
      }
    }

    method CopyAssign(h: Heap, rhs: Buffer, g: Grant) returns (h': Heap, threw: bool)
      modifies this
      ensures this == rhs ==> h' == h && !threw && View() == old(View())
      ensures this != rhs ==> Result(h', View(), threw) == CopyAssigned(h, old(View()), rhs.View(), g)
    {
      h', threw := h, false;
      if this != rhs {
        if s != rhs.s {
          h' := Free(h', View());
          h' := Allocate(h', g);
          d, s := g.p, rhs.s;
          if d == NULL {
            s := 0;
            return h', true;
          }
        }
        h' := Memcpy(h', d, rhs.d, s);
      }
    }

    method MoveAssign(h: Heap, rhs: Buffer) returns (h': Heap)
      modifies this, rhs
      ensures this == rhs ==> h' == h && View() == old(View())
      ensures this != rhs ==> h' == Free(h, old(View())) && View() == old(rhs.View()) && rhs.View() == EMPTY
    {
      h' := h;
      if this != rhs {
        h' := Free(h', View());
        d, s := rhs.d, rhs.s;
        rhs.d, rhs.s := NULL, 0;
      }
    }

    method Release() returns (p: int)
      modifies this
      ensures p == old(d) && View() == EMPTY
    {
      p := d;
      d, s := NULL, 0;
    }

    /** `send(buffer&&)`: a library that takes the bytes frees the block; a refusal leaves it to the wrapper. */
    method Send(h: Heap, ok: bool) returns (h': Heap, threw: bool)
      modifies this
      ensures threw <==> !ok
      ensures ok ==> h' == Free(h, old(View())) && View() == EMPTY
      ensures !ok ==> h' == h && View() == old(View())
    {
      if !ok {
        return h, true;
      }
      h' := Free(h, View());
      var _ := Release();
      return h', false;
    }
  }

  // ---- Any sequence of operations on any set of variables ----

  /** The variables in scope and the blocks whose pointer the caller took out with `release`. */
  datatype World = World(heap: Heap, vars: map<int, Buf>, raw: set<int>)

  /** `Recv` adopts the block the library allocated for a message; a null grant is a receive that throws. */
  datatype Op =
    | Default(v: int)
    | Adopt(v: int, p: int)
    | Size(v: int, n: nat, g: Grant)
    | CopyInit(v: int, w: int, g: Grant)
    | MoveInit(v: int, w: int)
    | CopyAssign(v: int, w: int, g: Grant)
    | MoveAssign(v: int, w: int)
    | Release(v: int)
    | Destroy(v: int)
    | Send(v: int, ok: bool)
    | Recv(v: int, n: nat, g: Grant)

  const NOTHING := World(Heap(map[], false), map[], {})

  /** Variables are initialised once and used while they live; a pointer is adopted by whoever owns it. */
  predicate Enabled(x: World, op: Op) {
    match op
    case Default(v) => v !in x.vars
    case Adopt(v, p) => v !in x.vars && p in x.raw
    case Size(v, n, g) => v !in x.vars && Grants(x.heap, n, g)
    case CopyInit(v, w, g) => v !in x.vars && w in x.vars && Grants(x.heap, x.vars[w].s, g)
    case MoveInit(v, w) => v !in x.vars && w in x.vars
    case CopyAssign(v, w, g) =>
      v in x.vars && w in x.vars && Grants(Free(x.heap, x.vars[v]), x.vars[w].s, g)
    case MoveAssign(v, w) => v in x.vars && w in x.vars
    case Release(v) => v in x.vars
    case Destroy(v) => v in x.vars
    case Send(v, ok) => v in x.vars
    case Recv(v, n, g) => v !in x.vars && Grants(x.heap, n, g)
  }

  /** A constructor that throws makes no variable. */
  function Init(x: World, v: int, r: Result): World {
    if r.threw then x.(heap := r.heap) else x.(heap := r.heap, vars := x.vars[v := r.buf])
  }

  function Do(x: World, op: Op): World
    requires Enabled(x, op)
  {
    match op
    case Default(v) => x.(vars := x.vars[v := EMPTY])
    case Adopt(v, p) =>
      x.(vars := x.vars[v := Buf(p, if p in x.heap.live then |x.heap.live[p]| else 0)], raw := x.raw - {p})
    case Size(v, n, g) => Init(x, v, Sized(x.heap, n, g))
    case CopyInit(v, w, g) => Init(x, v, Copied(x.heap, x.vars[w], g))
    case MoveInit(v, w) => x.(vars := x.vars[v := x.vars[w]][w := EMPTY])
    case CopyAssign(v, w, g) =>
      if v == w then x
      else
        var r := CopyAssigned(x.heap, x.vars[v], x.vars[w], g);
        x.(heap := r.heap, vars := x.vars[v := r.buf])
    case MoveAssign(v, w) =>
      if v == w then x
      else x.(heap := Free(x.heap, x.vars[v]), vars := x.vars[v := x.vars[w]][w := EMPTY])
    case Release(v) =>
      x.(vars := x.vars[v := EMPTY], raw := if x.vars[v].d == NULL then x.raw else x.raw + {x.vars[v].d})
    case Destroy(v) => x.(heap := Free(x.heap, x.vars[v]), vars := x.vars - {v})
    case Send(v, ok) => if ok then x.(heap := Free(x.heap, x.vars[v]), vars := x.vars[v := EMPTY]) else x
    case Recv(v, n, g) => Init(x, v, Sized(x.heap, n, g))
  }

  function Step(x: World, op: Op): World {
    if Enabled(x, op) then Do(x, op) else x
  }

  function After(ops: seq<Op>): World {
    if ops == [] then NOTHING else Step(After(ops[..|ops| - 1]), ops[|ops| - 1])
  }

  /** Living variables can be used in every way and with every outcome, each with itself, too. */
  lemma NothingForbidden(x: World, v: int, w: int, u: int, n: nat, junk: Bytes, p: int, ok: bool)
    requires v in x.vars && w in x.vars && u !in x.vars
    ensures Enabled(x, CopyAssign(v, w, Grant(NULL, junk))) && Enabled(x, MoveAssign(v, w)) && Enabled(x, Release(v))
    ensures Enabled(x, Destroy(v)) && Enabled(x, Send(v, ok)) && Enabled(x, MoveInit(u, v)) && Enabled(x, Default(u))
    ensures Enabled(x, CopyInit(u, v, Grant(NULL, junk))) && Enabled(x, Size(u, n, Grant(NULL, junk)))
    ensures Enabled(x, Recv(u, n, Grant(NULL, junk))) && (p in x.raw ==> Enabled(x, Adopt(u, p)))
    ensures p !in x.heap.live && |junk| == n ==>
              Enabled(x, Size(u, n, Grant(p, junk))) && Enabled(x, Recv(u, n, Grant(p, junk)))
    ensures p !in x.heap.live && |junk| == x.vars[w].s ==>
              Enabled(x, CopyAssign(v, w, Grant(p, junk))) && Enabled(x, CopyInit(u, w, Grant(p, junk)))
  {
  }

  // ---- Ownership ----

  datatype Owner = Var(v: int) | Caller

  predicate Owns(x: World, o: Owner, p: int) {
    match o
    case Var(v) => v in x.vars && x.vars[v].d == p
    case Caller => p in x.raw
  }

  /** Each live block has exactly one owner, wrappers know the size of theirs, and nothing was misused. */
  ghost predicate Linear(x: World) {
    && !x.heap.misused
    && NULL !in x.heap.live
    && (forall v :: v in x.vars ==> if x.vars[v].d == NULL then x.vars[v].s == 0
                                    else x.vars[v].d in x.heap.live && |x.heap.live[x.vars[v].d]| == x.vars[v].s)
    && x.raw <= x.heap.live.Keys
    && (forall v, w :: v in x.vars && w in x.vars && v != w && x.vars[v].d != NULL ==> x.vars[v].d != x.vars[w].d)
    && (forall v :: v in x.vars ==> x.vars[v].d !in x.raw)
    && (forall p :: p in x.heap.live ==> p in x.raw || exists v :: Owns(x, Var(v), p))
  }

  lemma OwnersStay(x: World, x': World, v: int, w: int)
    requires Linear(x)
    requires forall u :: u in x.vars && u != v && u != w ==> u in x'.vars && x'.vars[u] == x.vars[u]
    ensures forall p :: p in x.heap.live && p !in x.raw ==>
                          Owns(x, Var(v), p) || Owns(x, Var(w), p) || exists u :: Owns(x', Var(u), p)
  {
    forall p | p in x.heap.live && p !in x.raw && !Owns(x, Var(v), p) && !Owns(x, Var(w), p)
      ensures exists u :: Owns(x', Var(u), p)
    {
      var u :| Owns(x, Var(u), p);
      assert Owns(x', Var(u), p);
    }
  }

  lemma MakeLinear(x: World, op: Op)
    requires Linear(x) && Enabled(x, op) && (op.Default? || op.Adopt? || op.MoveInit?)
    ensures Linear(Do(x, op))
  {
    var x' := Do(x, op);
    OwnersStay(x, x', op.v, if op.MoveInit? then op.w else op.v);
    assert op.v in x'.vars ==> Owns(x', Var(op.v), x'.vars[op.v].d);
  }

  lemma NewBlockLinear(x: World, op: Op)
    requires Linear(x) && Enabled(x, op) && (op.Size? || op.CopyInit? || op.Recv?)
    ensures Linear(Do(x, op))
  {
    var x' := Do(x, op);
    OwnersStay(x, x', op.v, op.v);
    assert op.v in x'.vars ==> Owns(x', Var(op.v), x'.vars[op.v].d);
  }

  lemma EmptiedLinear(x: World, v: int)
    requires Linear(x) && v in x.vars
    ensures Linear(x.(heap := Free(x.heap, x.vars[v]), vars := x.vars[v := EMPTY]))
  {
    OwnersStay(x, x.(heap := Free(x.heap, x.vars[v]), vars := x.vars[v := EMPTY]), v, v);
  }

  lemma FilledLinear(x: World, v: int, n: nat, g: Grant)
    requires Linear(x) && v in x.vars && x.vars[v] == EMPTY && Grants(x.heap, n, g) && g.p != NULL
    ensures Linear(x.(heap := Allocate(x.heap, g), vars := x.vars[v := Buf(g.p, n)]))
  {
    var x' := x.(heap := Allocate(x.heap, g), vars := x.vars[v := Buf(g.p, n)]);
    OwnersStay(x, x', v, v);
    assert Owns(x', Var(v), g.p);
  }

  /** Copying between live blocks within their sizes changes contents only. */
  lemma MemcpyLinear(x: World, v: int, w: int)
    requires Linear(x) && v in x.vars && w in x.vars && x.vars[v].s == x.vars[w].s
    ensures Linear(x.(heap := Memcpy(x.heap, x.vars[v].d, x.vars[w].d, x.vars[v].s)))
  {
    OwnersStay(x, x.(heap := Memcpy(x.heap, x.vars[v].d, x.vars[w].d, x.vars[v].s)), v, w);
    assert Owns(x.(heap := Memcpy(x.heap, x.vars[v].d, x.vars[w].d, x.vars[v].s)), Var(v), x.vars[v].d);
    assert Owns(x.(heap := Memcpy(x.heap, x.vars[v].d, x.vars[w].d, x.vars[v].s)), Var(w), x.vars[w].d);
  }

  lemma CopyAssignLinear(x: World, v: int, w: int, g: Grant)
    requires Linear(x) && Enabled(x, CopyAssign(v, w, g)) && v != w
    ensures Linear(Do(x, CopyAssign(v, w, g)))
  {
    if x.vars[v].s == x.vars[w].s {
      MemcpyLinear(x, v, w);
      assert x.vars[v := x.vars[v]] == x.vars;
    } else {
      EmptiedLinear(x, v);
      var x1 := x.(heap := Free(x.heap, x.vars[v]), vars := x.vars[v := EMPTY]);
      if g.p != NULL {
        FilledLinear(x1, v, x.vars[w].s, g);
        MemcpyLinear(x1.(heap := Allocate(x1.heap, g), vars := x1.vars[v := Buf(g.p, x.vars[w].s)]), v, w);
        assert x1.vars[v := Buf(g.p, x.vars[w].s)] == x.vars[v := Buf(g.p, x.vars[w].s)];
      }
    }
  }

  lemma MoveAssignLinear(x: World, v: int, w: int)
    requires Linear(x) && Enabled(x, MoveAssign(v, w))
    ensures Linear(Do(x, MoveAssign(v, w)))
  {
    var x' := Do(x, MoveAssign(v, w));
    OwnersStay(x, x', v, w);
    assert Owns(x', Var(v), x'.vars[v].d) && Owns(x', Var(w), x'.vars[w].d);
  }

  lemma GiveUpLinear(x: World, op: Op)
    requires Linear(x) && Enabled(x, op) && (op.Release? || op.Destroy?)
    ensures Linear(Do(x, op))
  {
    OwnersStay(x, Do(x, op), op.v, op.v);
  }

  /** Whatever is done, allocation failures included, no block is freed twice, freed with a wrong size or lost. */
  lemma {:induction false} OwnershipIsLinear(ops: seq<Op>)
    ensures Linear(After(ops))
  {
    if ops != [] {
      var x, op := After(ops[..|ops| - 1]), ops[|ops| - 1];
      OwnershipIsLinear(ops[..|ops| - 1]);
      if Enabled(x, op) {
        match op
        case CopyAssign(v, w, g) => if v != w { CopyAssignLinear(x, v, w, g); }
        case MoveAssign(v, w) => MoveAssignLinear(x, v, w);
        case Release(_) => GiveUpLinear(x, op);
        case Destroy(_) => GiveUpLinear(x, op);
        case Send(v, ok) => if ok { EmptiedLinear(x, v); }
        case Default(_) => MakeLinear(x, op);
        case Adopt(_, _) => MakeLinear(x, op);
        case MoveInit(_, _) => MakeLinear(x, op);
        case _ => NewBlockLinear(x, op);
      }
    }
  }

  /** Every live block has exactly one owner. */
  lemma ExactlyOneOwner(ops: seq<Op>, p: int)
    ensures var x := After(ops);
            && (p in x.heap.live <==> p != NULL && exists o :: Owns(x, o, p))
            && (forall o, q :: p != NULL && Owns(x, o, p) && Owns(x, q, p) ==> o == q)
  {
    OwnershipIsLinear(ops);
    var x := After(ops);
    if p in x.heap.live && p in x.raw {
      assert Owns(x, Caller, p);
    }
  }

  // ---- What every operation does to the blocks and their owners ----

  /** Assigning over a buffer of another size allocates. */
  predicate Resizes(x: World, op: Op)
    requires Enabled(x, op)
  {
    op.CopyAssign? && op.v != op.w && x.vars[op.v].s != x.vars[op.w].s
  }

  /** `p` is the block the operation allocates, for variable `op.v`. */
  predicate Makes(x: World, op: Op, p: int)
    requires Enabled(x, op)
  {
    (op.Size? || op.CopyInit? || op.Recv? || Resizes(x, op)) && op.g.p == p
  }

  /** Who `p` passes to, if the operation hands it on. */
  function Receiver(x: World, op: Op, p: int): Option<Owner>
    requires Enabled(x, op)
  {
    match op
    case Adopt(v, k) => if k == p then Some(Var(v)) else None
    case MoveInit(v, w) => if x.vars[w].d == p then Some(Var(v)) else None
    case MoveAssign(v, w) => if v != w && x.vars[w].d == p then Some(Var(v)) else None
    case Release(v) => if x.vars[v].d == p then Some(Caller) else None
    case _ => if Makes(x, op, p) then Some(Var(op.v)) else None
  }

  /** The block the operation frees. */
  predicate Frees(x: World, op: Op, p: int)
    requires Enabled(x, op)
  {
    match op
    case MoveAssign(v, w) => v != w && x.vars[v].d == p
    case CopyAssign(v, w, _) => Resizes(x, op) && x.vars[v].d == p
    case Destroy(v) => x.vars[v].d == p
    case Send(v, ok) => ok && x.vars[v].d == p
    case _ => false
  }

  lemma LiveAfter(x: World, op: Op, p: int)
    requires Linear(x) && Enabled(x, op) && p != NULL
    ensures p in Do(x, op).heap.live <==> Makes(x, op, p) || (p in x.heap.live && !Frees(x, op, p))
  {
  }

  lemma OwnersAfter(x: World, op: Op, o: Owner, p: int)
    requires Linear(x) && Enabled(x, op) && p != NULL
    ensures Owns(Do(x, op), o, p) <==>
            if Receiver(x, op, p).Some? then Receiver(x, op, p) == Some(o) else !Frees(x, op, p) && Owns(x, o, p)
  {
    hide Memcpy;
  }

  /** Every operation makes, frees and hands on just the blocks it is for; all others stay, with their owners. */
  lemma BlocksAfter(x: World, op: Op, o: Owner, p: int)
    requires Linear(x) && Enabled(x, op) && p != NULL
    ensures p in Do(x, op).heap.live <==> Makes(x, op, p) || (p in x.heap.live && !Frees(x, op, p))
    ensures Owns(Do(x, op), o, p) <==>
            if Receiver(x, op, p).Some? then Receiver(x, op, p) == Some(o) else !Frees(x, op, p) && Owns(x, o, p)
  {
    hide Linear, Do, Owns;
    LiveAfter(x, op, p);
    OwnersAfter(x, op, o, p);
  }

  /** Variables begin with a constructor that does not throw and end with their destructor. */
  lemma VariablesAfter(x: World, op: Op, u: int)
    requires Enabled(x, op)
    ensures u in Do(x, op).vars <==>
            if op.Destroy? && op.v == u then false
            else u in x.vars || (op.v == u && (op.Default? || op.Adopt? || op.MoveInit? ||
                                               ((op.Size? || op.CopyInit? || op.Recv?) && op.g.p != NULL)))
    ensures op.Default? ==> Do(x, op).vars[op.v] == EMPTY
  {
  }

  /** Contents change only by copying: into a new block, or into the target of an assignment of the same size. */
  lemma ContentsAfter(x: World, op: Op, p: int)
    requires Linear(x) && Enabled(x, op) && p in x.heap.live && p in Do(x, op).heap.live && !Makes(x, op, p)
    requires op.CopyAssign? && op.v != op.w ==> x.vars[op.v].d != p
    ensures Do(x, op).heap.live[p] == x.heap.live[p]
  {
  }

  /** A copy-constructed buffer has the size and the contents of its source, and nothing else changes. */
  lemma CopyInitCopies(x: World, v: int, w: int, g: Grant)
    requires Linear(x) && Enabled(x, CopyInit(v, w, g))
    ensures var x' := Do(x, CopyInit(v, w, g));
            if g.p == NULL then x' == x
            else
              && Contents(x', v) == Contents(x, w) && x'.vars == x.vars[v := Buf(g.p, |Contents(x, w)|)]
              && x'.raw == x.raw && x'.heap.live == x.heap.live[g.p := Contents(x, w)]
  {
  }

  /** A consuming send has freed the block when it succeeds and has left it with its one owner when it throws. */
  lemma SendFreesOrKeeps(x: World, v: int, ok: bool)
    requires Linear(x) && Enabled(x, Send(v, ok)) && x.vars[v].d != NULL
    ensures var x', p := Do(x, Send(v, ok)), x.vars[v].d;
            && Linear(x')
            && (ok <==> p !in x'.heap.live)
            && forall o :: Owns(x', o, p) <==> !ok && o == Var(v)
  {
    if ok {
      EmptiedLinear(x, v);
    }
  }

  /** What is received is in a new block that the wrapper alone owns; a receive that throws changes nothing. */
  lemma RecvAdopts(x: World, v: int, n: nat, g: Grant)
    requires Linear(x) && Enabled(x, Recv(v, n, g))
    ensures var x' := Do(x, Recv(v, n, g));
            && Linear(x')
            && if g.p == NULL then x' == x
               else (forall o :: Owns(x', o, g.p) <==> o == Var(v)) && Contents(x', v) == g.junk && x'.vars[v].s == n
  {
    NewBlockLinear(x, Recv(v, n, g));
  }

  /** A pointer with a size can be adopted exactly if it is null and empty, or the caller's with its own size. */
  lemma AdoptIff(x: World, v: int, b: Buf)
    requires Linear(x) && v !in x.vars
    ensures Linear(x.(vars := x.vars[v := b], raw := x.raw - {b.d})) <==>
            if b.d == NULL then b.s == 0 else b.d in x.raw && |x.heap.live[b.d]| == b.s
  {
    var x' := x.(vars := x.vars[v := b], raw := x.raw - {b.d});
    OwnersStay(x, x', v, v);
    assert v in x'.vars && Owns(x', Var(v), b.d);
    if b.d in x.heap.live && b.d !in x.raw {
      var u :| Owns(x, Var(u), b.d);
      assert u != v && u in x'.vars && x'.vars[u].d == b.d;
    }
  }

  /** When every variable is gone, what is left is what was released to the caller. */
  lemma NothingLeaks(ops: seq<Op>)
    requires After(ops).vars == map[]
    ensures After(ops).heap.live.Keys == After(ops).raw
  {
    OwnershipIsLinear(ops);
    var x := After(ops);
    forall p | p in x.heap.live ensures p in x.raw {
      assert forall v :: !Owns(x, Var(v), p);
    }
  }

  function Contents(x: World, v: int): Bytes
    requires v in x.vars
  {
    if x.vars[v].d in x.heap.live then x.heap.live[x.vars[v].d] else []
  }

  /** A copy that does not throw has the contents of its source; no other variable sees a change. */
  lemma CopyCopies(x: World, v: int, w: int, g: Grant)
    requires Linear(x) && Enabled(x, CopyAssign(v, w, g)) && v != w
    ensures var x' := Do(x, CopyAssign(v, w, g));
            && (forall u :: u in x.vars && u != v ==> u in x'.vars && Contents(x', u) == Contents(x, u))
            && (g.p != NULL || x.vars[v].s == x.vars[w].s ==> Contents(x', v) == Contents(x, w))
            && (g.p == NULL && x.vars[v].s != x.vars[w].s ==> x'.vars[v] == EMPTY)
  {
  }
}
