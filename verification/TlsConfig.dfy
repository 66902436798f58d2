/**
 `nng::tls::config`: a counted reference to a TLS configuration.  The library keeps the count, takes
 references of its own, and reclaims a configuration when its count reaches zero.
 */
module TlsConfig {

  const NULL: int := 0

  /** Counts of the configurations that exist; `misused` records a reference taken or dropped on one that does not. */
  datatype Store = Store(counts: map<int, nat>, misused: bool)

  function HoldIn(s: Store, p: int): Store {
    if p in s.counts then s.(counts := s.counts[p := s.counts[p] + 1]) else s.(misused := true)
  }

  function FreeIn(s: Store, p: int): Store {
    if p !in s.counts then s.(misused := true)
    else if s.counts[p] <= 1 then s.(counts := s.counts - {p})
    else s.(counts := s.counts[p := s.counts[p] - 1])
  }

  /** The wrappers free only what is not null. */
  function Drop(s: Store, p: int): Store { if p == NULL then s else FreeIn(s, p) }

  class Config {
    var c: int

    constructor (c: int)
      ensures this.c == c
    {
      this.c := c;
    }

    constructor Move(rhs: Config)
      modifies rhs
      ensures c == old(rhs.c) && rhs.c == NULL
    {
      c := rhs.c;
      new;
      rhs.c := NULL;
    }

    method Hold(s: Store) returns (s': Store, held: Config)
      ensures fresh(held) && held.c == c && s' == HoldIn(s, c)
    {
      s' := HoldIn(s, c);
      held := new Config(c);
    }

    method MoveAssign(s: Store, rhs: Config) returns (s': Store)
      modifies this, rhs
      ensures this == rhs ==> s' == s && c == old(c)
      ensures this != rhs ==> s' == Drop(s, old(c)) && c == old(rhs.c) && rhs.c == NULL
    {
      s' := s;
      if this != rhs {
        if c != NULL {
          s' := FreeIn(s', c);
        }
        c := rhs.c;
        rhs.c := NULL;
      }
    }

    method Release() returns (out: int)
      modifies this
      ensures out == old(c) && c == NULL
    {
      out := c;
      c := NULL;
    }
  }

  // ---- Any sequence of operations ----

  /** Wrappers, references the library holds, and references the caller took out with `release`. */
  datatype World = World(store: Store, vars: map<int, int>, lib: multiset<int>, raw: multiset<int>)

  datatype Op =
    | Default(v: int)
    | Alloc(v: int, p: int)
    | Hold(v: int, p: int)
    | Adopt(v: int, p: int)
    | MoveInit(v: int, w: int)
    | MoveAssign(v: int, w: int)
    | Release(v: int)
    | Destroy(v: int)
    | LibHold(p: int)
    | LibDrop(p: int)

  const NOTHING := World(Store(map[], false), map[], multiset{}, multiset{})

  /** A failed allocation throws and makes no variable; `hold` can be called through any view. */
  predicate Enabled(x: World, op: Op) {
    match op
    case Default(v) => v !in x.vars
    case Alloc(v, p) => v !in x.vars && p != NULL && p !in x.store.counts
    case Hold(v, p) => v !in x.vars
    case Adopt(v, p) => v !in x.vars && p in x.raw
    case MoveInit(v, w) => v !in x.vars && w in x.vars
    case MoveAssign(v, w) => v in x.vars && w in x.vars
    case Release(v) => v in x.vars
    case Destroy(v) => v in x.vars
    case LibHold(p) => true
    case LibDrop(p) => p in x.lib
  }

  function Plus(m: multiset<int>, p: int): multiset<int> { if p == NULL then m else m + multiset{p} }

  function Do(x: World, op: Op): World
    requires Enabled(x, op)
  {
    match op
    case Default(v) => x.(vars := x.vars[v := NULL])
    case Alloc(v, p) => x.(store := x.store.(counts := x.store.counts[p := 1]), vars := x.vars[v := p])
    case Hold(v, p) => x.(store := HoldIn(x.store, p), vars := x.vars[v := p])
    case Adopt(v, p) => x.(vars := x.vars[v := p], raw := x.raw - multiset{p})
    case MoveInit(v, w) => x.(vars := x.vars[v := x.vars[w]][w := NULL])
    case MoveAssign(v, w) =>
      if v == w then x
      else x.(store := Drop(x.store, x.vars[v]), vars := x.vars[v := x.vars[w]][w := NULL])
    case Release(v) => x.(vars := x.vars[v := NULL], raw := Plus(x.raw, x.vars[v]))
    case Destroy(v) => x.(store := Drop(x.store, x.vars[v]), vars := x.vars - {v})
    case LibHold(p) => x.(store := HoldIn(x.store, p), lib := x.lib + multiset{p})
    case LibDrop(p) => x.(store := FreeIn(x.store, p), lib := x.lib - multiset{p})
  }

  function Step(x: World, op: Op): World {
    if Enabled(x, op) then Do(x, op) else x
  }

  function After(ops: seq<Op>): World {
    if ops == [] then NOTHING else Step(After(ops[..|ops| - 1]), ops[|ops| - 1])
  }

  /** Living variables can be used in every way, and the library may take and drop references at any time. */
  lemma NothingForbidden(x: World, v: int, w: int, u: int, p: int)
    requires v in x.vars && w in x.vars && u !in x.vars
    ensures Enabled(x, MoveAssign(v, w)) && Enabled(x, Release(v)) && Enabled(x, Destroy(v))
    ensures Enabled(x, MoveInit(u, v))
    ensures Enabled(x, Hold(u, p)) && Enabled(x, LibHold(p)) && Enabled(x, Default(u))
    ensures (p in x.lib ==> Enabled(x, LibDrop(p))) && (p in x.raw ==> Enabled(x, Adopt(u, p)))
    ensures p != NULL && p !in x.store.counts ==> Enabled(x, Alloc(u, p))
  {
  }

  // ---- Counting owners ----

  function Owning(vars: map<int, int>, p: int): set<int> {
    set v | v in vars && vars[v] == p
  }

  /** Everyone who holds a reference to `p`: wrappers, the library, and the caller. */
  function Owners(x: World, p: int): nat {
    |Owning(x.vars, p)| + x.lib[p] + x.raw[p]
  }

  function Count(s: Store, p: int): nat { if p in s.counts then s.counts[p] else 0 }

  ghost predicate Counted(x: World) {
    && !x.store.misused
    && NULL !in x.store.counts && NULL !in x.lib && NULL !in x.raw
    && (forall p :: p in x.store.counts ==> x.store.counts[p] > 0)
    && (forall p :: p != NULL ==> Count(x.store, p) == Owners(x, p))
  }

  lemma OwningSet(vars: map<int, int>, v: int, p: int, q: int)
    requires (v !in vars || vars[v] == NULL) && q != NULL
    ensures |Owning(vars[v := p], q)| == |Owning(vars, q)| + if p == q then 1 else 0
  {
    assert Owning(vars[v := p], q) == Owning(vars, q) + if p == q then {v} else {};
  }

  lemma OwningCleared(vars: map<int, int>, v: int, q: int)
    requires v in vars && q != NULL
    ensures |Owning(vars[v := NULL], q)| == |Owning(vars, q)| - if vars[v] == q then 1 else 0
    ensures |Owning(vars - {v}, q)| == |Owning(vars, q)| - if vars[v] == q then 1 else 0
  {
    var gone := if vars[v] == q then {v} else {};
    assert Owning(vars[v := NULL], q) == Owning(vars, q) - gone;
    assert Owning(vars - {v}, q) == Owning(vars, q) - gone;
  }

  lemma OwningMoved(vars: map<int, int>, v: int, w: int, q: int)
    requires w in vars && v != w && q != NULL
    ensures |Owning(vars[v := vars[w]][w := NULL], q)|
         == |Owning(vars, q)| - if v in vars && vars[v] == q then 1 else 0
  {
    var cleared := if v in vars then vars[v := NULL] else vars;
    if v in vars {
      OwningCleared(vars, v, q);
    }
    OwningCleared(cleared, w, q);
    OwningSet(cleared[w := NULL], v, vars[w], q);
    assert cleared[w := NULL][v := vars[w]] == vars[v := vars[w]][w := NULL];
  }

  /** A reference is taken only on a configuration that exists. */
  predicate Careful(x: World, op: Op) {
    op.Hold? || op.LibHold? ==> op.p in x.store.counts
  }

  predicate Gains(op: Op, q: int) {
    (op.Alloc? || op.Hold? || op.Adopt?) && op.p == q
  }

  predicate Gives(x: World, op: Op, q: int)
    requires Enabled(x, op)
  {
    (op.Release? || op.Destroy? || (op.MoveAssign? && op.v != op.w)) && x.vars[op.v] == q
  }

  lemma OwningStep(x: World, op: Op, q: int)
    requires Enabled(x, op) && q != NULL
    ensures |Owning(Do(x, op).vars, q)|
         == |Owning(x.vars, q)| + (if Gains(op, q) then 1 else 0) - (if Gives(x, op, q) then 1 else 0)
  {
    match op
    case Default(v) => OwningSet(x.vars, v, NULL, q);
    case Alloc(v, p) => OwningSet(x.vars, v, p, q);
    case Hold(v, p) => OwningSet(x.vars, v, p, q);
    case Adopt(v, p) => OwningSet(x.vars, v, p, q);
    case MoveInit(v, w) => OwningMoved(x.vars, v, w, q);
    case MoveAssign(v, w) => if v != w { OwningMoved(x.vars, v, w, q); }
    case Release(v) => OwningCleared(x.vars, v, q);
    case Destroy(v) => OwningCleared(x.vars, v, q);
    case _ =>
  }

  lemma OwnerHasCount(x: World, v: int)
    requires Counted(x) && v in x.vars && x.vars[v] != NULL
    ensures x.vars[v] in x.store.counts
  {
    assert v in Owning(x.vars, x.vars[v]);
    assert Count(x.store, x.vars[v]) == Owners(x, x.vars[v]);
  }

  predicate Takes(op: Op, p: int) {
    (op.Alloc? || op.Hold? || op.LibHold?) && op.p == p
  }

  /** What an operation gives up: the wrapper it overwrites or ends, or a reference of the library. */
  predicate Drops(x: World, op: Op, p: int)
    requires Enabled(x, op)
  {
    match op
    case MoveAssign(v, w) => v != w && x.vars[v] == p
    case Destroy(v) => x.vars[v] == p
    case LibDrop(q) => q == p
    case _ => false
  }

  function Held(x: World, q: int): nat { x.lib[q] + x.raw[q] }

  lemma HeldStep(x: World, op: Op, q: int)
    requires Enabled(x, op) && q != NULL
    ensures Held(Do(x, op), q) == Held(x, q) + (if op.LibHold? && op.p == q then 1 else 0)
                                  + (if op.Release? && x.vars[op.v] == q then 1 else 0)
                                  - (if (op.LibDrop? || op.Adopt?) && op.p == q then 1 else 0)
  {
  }

  /** Moves and releases hand a reference on; only taking one and dropping one change the number of owners. */
  lemma OwnersStep(x: World, op: Op, q: int)
    requires Enabled(x, op) && q != NULL
    ensures Owners(Do(x, op), q)
         == Owners(x, q) + (if Takes(op, q) then 1 else 0) - (if Drops(x, op, q) then 1 else 0)
  {
    hide Owning, Do;
    OwningStep(x, op, q);
    HeldStep(x, op, q);
    assert Owners(x, q) == |Owning(x.vars, q)| + Held(x, q);
    assert Owners(Do(x, op), q) == |Owning(Do(x, op).vars, q)| + Held(Do(x, op), q);
  }

  datatype Owner = Var(v: int) | Library | Caller

  /** How many references to `p` an owner has. */
  function References(x: World, o: Owner, p: int): nat {
    match o
    case Var(v) => if v in x.vars && x.vars[v] == p then 1 else 0
    case Library => x.lib[p]
    case Caller => x.raw[p]
  }

  /** The operation gives `o` a reference to `p`. */
  predicate Receives(x: World, op: Op, o: Owner, p: int)
    requires Enabled(x, op)
  {
    match op
    case Alloc(v, k) => k == p && o == Var(v)
    case Hold(v, k) => k == p && o == Var(v)
    case Adopt(v, k) => k == p && o == Var(v)
    case MoveInit(v, w) => x.vars[w] == p && o == Var(v)
    case MoveAssign(v, w) => v != w && x.vars[w] == p && o == Var(v)
    case Release(v) => x.vars[v] == p && o == Caller
    case LibHold(k) => k == p && o == Library
    case _ => false
  }

  /** The operation takes a reference to `p` from `o`. */
  predicate Yields(x: World, op: Op, o: Owner, p: int)
    requires Enabled(x, op)
  {
    match op
    case Adopt(_, k) => k == p && o == Caller
    case MoveInit(_, w) => x.vars[w] == p && o == Var(w)
    case MoveAssign(v, w) => v != w && ((x.vars[w] == p && o == Var(w)) || (x.vars[v] == p && o == Var(v)))
    case Release(v) => x.vars[v] == p && o == Var(v)
    case Destroy(v) => x.vars[v] == p && o == Var(v)
    case LibDrop(k) => k == p && o == Library
    case _ => false
  }

  lemma VarReferences(x: World, op: Op, v: int, p: int)
    requires Enabled(x, op) && p != NULL
    ensures References(Do(x, op), Var(v), p)
         == References(x, Var(v), p) + (if Receives(x, op, Var(v), p) then 1 else 0)
                                     - (if Yields(x, op, Var(v), p) then 1 else 0)
  {
    hide HoldIn, FreeIn, Drop, Plus;
  }

  lemma OtherReferences(x: World, op: Op, o: Owner, p: int)
    requires Enabled(x, op) && p != NULL && !o.Var?
    ensures References(Do(x, op), o, p)
         == References(x, o, p) + (if Receives(x, op, o, p) then 1 else 0) - (if Yields(x, op, o, p) then 1 else 0)
  {
    hide HoldIn, FreeIn, Drop;
  }

  /** Owner by owner: every operation gives and takes just the reference it is for. */
  lemma ReferencesAfter(x: World, op: Op, o: Owner, p: int)
    requires Enabled(x, op) && p != NULL
    ensures References(Do(x, op), o, p)
         == References(x, o, p) + (if Receives(x, op, o, p) then 1 else 0) - (if Yields(x, op, o, p) then 1 else 0)
  {
    hide Do, References, Receives, Yields;
    if o.Var? { VarReferences(x, op, o.v, p); } else { OtherReferences(x, op, o, p); }
  }

  /** Variables begin with their constructor and end with their destructor. */
  lemma VariablesAfter(x: World, op: Op, u: int)
    requires Enabled(x, op)
    ensures u in Do(x, op).vars <==>
            if op.LibHold? || op.LibDrop? then u in x.vars
            else if op.Destroy? && op.v == u then false
            else u in x.vars || op.v == u
    ensures op.Default? ==> Do(x, op).vars[op.v] == NULL
  {
  }

  lemma CountStep(x: World, op: Op, q: int)
    requires Counted(x) && Enabled(x, op) && Careful(x, op) && q != NULL
    ensures Count(Do(x, op).store, q) == Owners(Do(x, op), q)
  {
    hide Owners;
    OwnersStep(x, op, q);
    assert Count(x.store, q) == Owners(x, q);
  }

  lemma HeldHasCount(x: World, p: int)
    requires Counted(x) && p in x.lib
    ensures p in x.store.counts
  {
    assert Count(x.store, p) == Owners(x, p);
  }

  lemma StoreStaysSound(x: World, op: Op)
    requires Enabled(x, op) && Careful(x, op) && !x.store.misused && NULL !in x.store.counts && NULL !in x.lib
    requires forall p :: p in x.store.counts ==> x.store.counts[p] > 0
    requires (op.MoveAssign? || op.Destroy?) && x.vars[op.v] != NULL ==> x.vars[op.v] in x.store.counts
    requires op.LibDrop? ==> op.p in x.store.counts
    ensures var s := Do(x, op).store;
            !s.misused && NULL !in s.counts && forall p :: p in s.counts ==> s.counts[p] > 0
  {
  }

  lemma NullIsNotHeld(x: World, op: Op)
    requires Enabled(x, op) && Careful(x, op) && NULL !in x.store.counts && NULL !in x.lib && NULL !in x.raw
    ensures NULL !in Do(x, op).lib && NULL !in Do(x, op).raw
  {
  }

  lemma CarefulCounted(x: World, op: Op)
    requires Counted(x) && Enabled(x, op) && Careful(x, op)
    ensures Counted(Do(x, op))
  {
    hide Owners, Count, Do;
    if (op.MoveAssign? || op.Destroy?) && x.vars[op.v] != NULL {
      OwnerHasCount(x, op.v);
    }
    if op.LibDrop? {
      HeldHasCount(x, op.p);
    }
    StoreStaysSound(x, op);
    NullIsNotHeld(x, op);
    forall q | q != NULL ensures Count(Do(x, op).store, q) == Owners(Do(x, op), q) {
      CountStep(x, op, q);
    }
  }

  /** The count stays the number of owners if and only if no reference is taken on a reclaimed or null configuration. */
  lemma StepCountedIff(x: World, op: Op)
    requires Counted(x) && Enabled(x, op)
    ensures Counted(Step(x, op)) <==> Careful(x, op)
  {
    if Careful(x, op) {
      CarefulCounted(x, op);
    }
  }

  /** A pointer can be adopted exactly if it is null or a reference the caller has. */
  lemma AdoptIff(x: World, v: int, p: int)
    requires Counted(x) && v !in x.vars
    ensures Counted(x.(vars := x.vars[v := p], raw := x.raw - multiset{p})) <==> p == NULL || p in x.raw
  {
    var x' := x.(vars := x.vars[v := p], raw := x.raw - multiset{p});
    forall q | q != NULL ensures Owners(x', q) == Owners(x, q) + if q == p && p !in x.raw then 1 else 0 {
      OwningSet(x.vars, v, p, q);
    }
    assert p != NULL ==> Count(x.store, p) == Owners(x, p);
  }

  predicate CarefulRun(ops: seq<Op>) {
    ops != [] ==>
      var x, op := After(ops[..|ops| - 1]), ops[|ops| - 1];
      CarefulRun(ops[..|ops| - 1]) && (Enabled(x, op) ==> Careful(x, op))
  }

  lemma {:induction false} RunCounted(ops: seq<Op>)
    requires CarefulRun(ops)
    ensures Counted(After(ops))
  {
    if ops == [] {
      assert forall p :: Owning(map[], p) == {};
    } else {
      RunCounted(ops[..|ops| - 1]);
      if Enabled(After(ops[..|ops| - 1]), ops[|ops| - 1]) {
        StepCountedIff(After(ops[..|ops| - 1]), ops[|ops| - 1]);
      }
    }
  }

  /** A configuration exists exactly as long as someone owns a reference, and its count is the number of owners. */
  lemma CountIsOwners(ops: seq<Op>, p: int)
    requires CarefulRun(ops) && p != NULL
    ensures var x := After(ops);
            && (p in x.store.counts <==> Owners(x, p) > 0)
            && (p in x.store.counts ==> x.store.counts[p] == Owners(x, p))
  {
    RunCounted(ops);
    assert Count(After(ops).store, p) == Owners(After(ops), p);
  }

  /** Exactly the step that gives up the last reference reclaims the configuration. */
  lemma ReclaimedByTheLastOwner(x: World, op: Op, p: int)
    requires Counted(x) && Enabled(x, op) && Careful(x, op) && p in x.store.counts
    ensures p !in Do(x, op).store.counts <==> Drops(x, op, p) && Owners(x, p) == 1
  {
    assert Count(x.store, p) == Owners(x, p);
  }
}
