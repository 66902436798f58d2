/**
 The delayed echo that both parallel servers implement, with no threads, aios or message slots.

 At most `n` requests are open at a time.  A request whose body has no room for the delay is dropped;
 any other is answered with the rest of its body, once the sleep for its delay has ended or failed.
 */
module EchoSpec {
  import opened Bytes
  import opened BigEndian

  datatype Request = Request(route: Bytes, body: Bytes, at: int)
  datatype Reply = Reply(id: int, route: Bytes, body: Bytes, at: int)

  /**
   `taken` lists every request received, `open` maps a worker to the index of the request it has, and `cut`
   has the requests whose sleep failed.  `endless` says whether a duration of -1 never ends.
   */
  datatype Echo = Echo(endless: bool, now: int, taken: seq<Request>, open: map<int, int>, cut: set<int>,
                       dropped: seq<int>, replies: seq<Reply>)

  datatype Action = Stutter | Pass(d: int) | Take(i: int, r: Request) | Cut(i: int) | Drop(i: int) | Answer(i: int)

  function Start(endless: bool): Echo { Echo(endless, 0, [], map[], {}, [], []) }

  predicate WellFormed(r: Request) { |r.body| >= 4 }

  function Delay(r: Request): (d: nat)
    requires WellFormed(r)
    ensures d < TWO_32
  {
    assert Pow256(2) == 0x1_0000 && Pow256(4) == TWO_32;
    Decode(r.body[..4])
  }

  /**
   Whether a sleep for the delay of `r`, begun when it was received, may have ended at `now`: a negative
   duration gives no bound, except that -1 may be endless.
   */
  predicate Ripe(endless: bool, r: Request, now: int)
    requires WellFormed(r)
  {
    if Delay(r) < TWO_31 then r.at + Delay(r) <= now else !(endless && Delay(r) == TWO_32 - 1)
  }

  predicate Has(a: Echo, i: int) {
    i in a.open && 0 <= a.open[i] < |a.taken|
  }

  predicate Allowed(n: int, a: Echo, act: Action) {
    match act
    case Stutter => true
    case Pass(d) => d >= 0
    case Take(i, r) => 0 <= i < n && i !in a.open && r.at == a.now
    case Cut(i) => Has(a, i)
    case Drop(i) => Has(a, i) && !WellFormed(a.taken[a.open[i]])
    case Answer(i) =>
      && Has(a, i) && WellFormed(a.taken[a.open[i]])
      && (a.open[i] in a.cut || Ripe(a.endless, a.taken[a.open[i]], a.now))
  }

  function Apply(a: Echo, act: Action): Echo {
    match act
    case Stutter => a
    case Pass(d) => a.(now := a.now + d)
    case Take(i, r) => a.(taken := a.taken + [r], open := a.open[i := |a.taken|])
    case Cut(i) => if !Has(a, i) then a else a.(cut := a.cut + {a.open[i]})
    case Drop(i) =>
      if !Has(a, i) then a else a.(open := a.open - {i}, dropped := a.dropped + [a.open[i]])
    case Answer(i) =>
      if !Has(a, i) || !WellFormed(a.taken[a.open[i]]) then a
      else
        var r := a.taken[a.open[i]];
        a.(open := a.open - {i}, replies := a.replies + [Reply(a.open[i], r.route, r.body[4..], a.now)])
  }

  /** Every request received is at one worker, was dropped once or was answered once; no two of these. */
  ghost predicate Accounted(n: int, a: Echo) {
    && |a.taken| == |a.open| + |a.dropped| + |a.replies|
    && (forall i :: i in a.open ==> 0 <= i < n && 0 <= a.open[i] < |a.taken|)
    && (forall i, k :: i in a.open && k in a.open && i != k ==> a.open[i] != a.open[k])
    && (forall k :: 0 <= k < |a.dropped| ==> 0 <= a.dropped[k] < |a.taken|)
    && (forall p, q :: 0 <= p < q < |a.dropped| ==> a.dropped[p] != a.dropped[q])
    && (forall p, q :: 0 <= p < q < |a.replies| ==> a.replies[p].id != a.replies[q].id)
    && (forall i, k :: i in a.open && 0 <= k < |a.dropped| ==> a.open[i] != a.dropped[k])
    && (forall i, k :: i in a.open && 0 <= k < |a.replies| ==> a.open[i] != a.replies[k].id)
    && (forall p, q :: 0 <= p < |a.dropped| && 0 <= q < |a.replies| ==> a.dropped[p] != a.replies[q].id)
  }

  /** Each reply is what its own request calls for. */
  predicate Right(a: Echo, p: Reply) {
    && 0 <= p.id < |a.taken|
    && var r := a.taken[p.id];
       && WellFormed(r) && p.route == r.route && p.body == r.body[4..]
       && (p.id in a.cut || Ripe(a.endless, r, p.at))
  }

  ghost predicate Faithful(a: Echo) {
    && (forall k :: 0 <= k < |a.replies| ==> Right(a, a.replies[k]))
    && (forall k :: 0 <= k < |a.dropped| ==> 0 <= a.dropped[k] < |a.taken| && !WellFormed(a.taken[a.dropped[k]]))
  }

  lemma TakeAccounted(n: int, a: Echo, i: int, r: Request)
    requires Accounted(n, a) && Faithful(a) && Allowed(n, a, Take(i, r))
    ensures Accounted(n, Apply(a, Take(i, r)))
  {
    forall k | 0 <= k < |a.replies| ensures a.replies[k].id < |a.taken| {
      assert Right(a, a.replies[k]);
    }
  }

  lemma DropAccounted(n: int, a: Echo, i: int)
    requires Accounted(n, a) && Allowed(n, a, Drop(i))
    ensures Accounted(n, Apply(a, Drop(i)))
  {
  }

  lemma AnswerAccounted(n: int, a: Echo, i: int)
    requires Accounted(n, a) && Allowed(n, a, Answer(i))
    ensures Accounted(n, Apply(a, Answer(i)))
  {
  }

  lemma AccountedStep(n: int, a: Echo, act: Action)
    requires Accounted(n, a) && Faithful(a) && Allowed(n, a, act)
    ensures Accounted(n, Apply(a, act))
  {
    match act
    case Stutter =>
    case Pass(_) =>
    case Cut(_) =>
    case Take(i, r) => TakeAccounted(n, a, i, r);
    case Drop(i) => DropAccounted(n, a, i);
    case Answer(i) => AnswerAccounted(n, a, i);
  }

  lemma FaithfulStep(n: int, a: Echo, act: Action)
    requires Faithful(a) && Allowed(n, a, act)
    ensures Faithful(Apply(a, act))
  {
    forall k | 0 <= k < |a.replies| ensures Right(Apply(a, act), a.replies[k]) {
      assert Right(a, a.replies[k]);
    }
  }

  /** Never more open requests than workers. */
  lemma OpenBound(n: int, a: Echo)
    requires Accounted(n, a) && 0 <= n
    ensures |a.open| <= n
  {
    Below(n, a.open.Keys);
  }

  lemma {:induction false} Below(n: int, s: set<int>)
    requires 0 <= n && forall i :: i in s ==> 0 <= i < n
    ensures |s| <= n
  {
    if n == 0 {
      forall i ensures i !in s {}
      assert |s| == 0;
    } else {
      Below(n - 1, s - {n - 1});
    }
  }

  predicate HeldBy(a: Echo, i: int, id: int) { i in a.open && a.open[i] == id }
  predicate DroppedAt(a: Echo, k: int, id: int) { 0 <= k < |a.dropped| && a.dropped[k] == id }
  predicate AnsweredAt(a: Echo, k: int, id: int) { 0 <= k < |a.replies| && a.replies[k].id == id }

  /** Request `id` is at a worker, or was dropped, or was answered. */
  ghost predicate Known(a: Echo, id: int) {
    || (exists i :: HeldBy(a, i, id))
    || (exists k :: DroppedAt(a, k, id))
    || (exists k :: AnsweredAt(a, k, id))
  }

  /** No request is ever lost: what was received and what was known stays known. */
  lemma KnownStep(n: int, a: Echo, act: Action, id: int)
    requires Allowed(n, a, act) && 0 <= id < |Apply(a, act).taken| && (id < |a.taken| ==> Known(a, id))
    ensures Known(Apply(a, act), id)
  {
    var a' := Apply(a, act);
    if id == |a.taken| {
      assert HeldBy(a', act.i, id);
    } else if i :| HeldBy(a, i, id) {
      if act.Drop? && act.i == i {
        assert DroppedAt(a', |a.dropped|, id);
      } else if act.Answer? && act.i == i {
        assert AnsweredAt(a', |a.replies|, id);
      } else {
        assert HeldBy(a', i, id);
      }
    } else if k :| DroppedAt(a, k, id) {
      assert DroppedAt(a', k, id);
    } else {
      var k :| AnsweredAt(a, k, id);
      assert AnsweredAt(a', k, id);
    }
  }
}
