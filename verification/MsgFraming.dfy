/**
 Message headers and bodies as buffers that grow and shrink at both ends, and the fixed-width
 integers framed in them.  A call that throws leaves the buffer as it was.
 */
module MsgFraming {
  import opened Bytes
  import opened BigEndian

  datatype Status = Done | NoMemory | Invalid

  /** One part of a message, header or body; both have the same operations. */
  class Part {
    var bytes: Bytes

    constructor ()
      ensures bytes == []
    {
      bytes := [];
    }

    method Clear()
      modifies this
      ensures bytes == []
    {
      bytes := [];
    }

    /** `enough` says whether the library finds the memory to grow. */
    method Append(v: Bytes, enough: bool) returns (r: Status)
      modifies this
      ensures r == if enough then Done else NoMemory
      ensures bytes == if r == Done then old(bytes) + v else old(bytes)
    {
      if !enough {
        return NoMemory;
      }
      bytes := bytes + v;
      return Done;
    }

    method Insert(v: Bytes, enough: bool) returns (r: Status)
      modifies this
      ensures r == if enough then Done else NoMemory
      ensures bytes == if r == Done then v + old(bytes) else old(bytes)
    {
      if !enough {
        return NoMemory;
      }
      bytes := v + bytes;
      return Done;
    }

    method Trim(size: nat) returns (r: Status)
      modifies this
      ensures r == Done <==> size <= |old(bytes)|
      ensures r == Done ==> |old(bytes)| == |bytes| + size && bytes == old(bytes)[size..]
      ensures r != Done ==> r == Invalid && bytes == old(bytes)
    {
      if size > |bytes| {
        return Invalid;
      }
      bytes := bytes[size..];
      return Done;
    }

    method Chop(size: nat) returns (r: Status)
      modifies this
      ensures r == Done <==> size <= |old(bytes)|
      ensures r == Done ==> |old(bytes)| == |bytes| + size && bytes == old(bytes)[..|bytes|]
      ensures r != Done ==> r == Invalid && bytes == old(bytes)
    {
      if size > |bytes| {
        return Invalid;
      }
      bytes := bytes[..|bytes| - size];
      return Done;
    }

    /** The u16, u32 and u64 forms, for a width of 2, 4 or 8 bytes. */
    method AppendUint(k: nat, val: nat, enough: bool) returns (r: Status)
      requires val < Pow256(k)
      modifies this
      ensures r == if enough then Done else NoMemory
      ensures bytes == if r == Done then old(bytes) + Encode(k, val) else old(bytes)
    {
      r := Append(Encode(k, val), enough);
    }

    method InsertUint(k: nat, val: nat, enough: bool) returns (r: Status)
      requires val < Pow256(k)
      modifies this
      ensures r == if enough then Done else NoMemory
      ensures bytes == if r == Done then Encode(k, val) + old(bytes) else old(bytes)
    {
      r := Insert(Encode(k, val), enough);
    }

    method TrimUint(k: nat) returns (r: Status, val: nat)
      modifies this
      ensures r == if k <= |old(bytes)| then Done else Invalid
      ensures r == Done ==> old(bytes) == Encode(k, val) + bytes && val < Pow256(k)
      ensures r != Done ==> bytes == old(bytes)
    {
      val := 0;
      if k <= |bytes| {
        val := Decode(bytes[..k]);
        EncodeDecode(bytes[..k]);
        assert bytes == bytes[..k] + bytes[k..];
      }
      r := Trim(k);
    }

    method ChopUint(k: nat) returns (r: Status, val: nat)
      modifies this
      ensures r == if k <= |old(bytes)| then Done else Invalid
      ensures r == Done ==> old(bytes) == bytes + Encode(k, val) && val < Pow256(k)
      ensures r != Done ==> bytes == old(bytes)
    {
      val := 0;
      if k <= |bytes| {
        val := Decode(bytes[|bytes| - k..]);
        EncodeDecode(bytes[|bytes| - k..]);
        assert bytes == bytes[..|bytes| - k] + bytes[|bytes| - k..];
      }
      r := Chop(k);
    }
  }

  /** A message: operating on one part leaves the other alone. */
  class Message {
    const header: Part
    const body: Part

    ghost predicate Valid() { header != body }

    constructor ()
      ensures Valid() && fresh(header) && fresh(body)
      ensures header.bytes == [] && body.bytes == []
    {
      header := new Part();
      body := new Part();
    }

    /** What a raw server does to a request: the delay comes off the body and the routing stays in the header. */
    method TrimDelay() returns (r: Status, delay: nat)
      requires Valid()
      modifies body
      ensures header.bytes == old(header.bytes)
      ensures r == if 4 <= |old(body.bytes)| then Done else Invalid
      ensures r == Done ==> old(body.bytes) == Encode(4, delay) + body.bytes && delay < Pow256(4)
      ensures r != Done ==> body.bytes == old(body.bytes)
    {
      r, delay := body.TrimUint(4);
    }

    /** A hop recorded in the header and taken off again leaves both parts as they were. */
    method PushPopHop(k: nat, hop: nat, enough: bool) returns (r: Status, back: nat)
      requires Valid() && hop < Pow256(k)
      modifies header
      ensures header.bytes == old(header.bytes) && body.bytes == old(body.bytes)
      ensures r == if enough then Done else NoMemory
      ensures r == Done ==> back == hop
    {
      back := 0;
      r := header.InsertUint(k, hop, enough);
      if r == Done {
        var r2;
        r2, back := header.TrimUint(k);
        SplitEqual(Encode(k, hop), old(header.bytes), Encode(k, back), header.bytes);
        EncodeInjective(k, hop, back);
      }
    }
  }

  // ---- Integers of one width in a part ----

  predicate Fits(k: nat, vs: seq<nat>) {
    forall i :: 0 <= i < |vs| ==> vs[i] < Pow256(k)
  }

  function Framed(k: nat, vs: seq<nat>): Bytes {
    if vs == [] then [] else Encode(k, vs[0]) + Framed(k, vs[1..])
  }

  lemma Associates(a: Bytes, b: Bytes, c: Bytes)
    ensures a + b + c == a + (b + c)
  {
  }

  lemma {:induction false} FramedSplits(k: nat, a: seq<nat>, b: seq<nat>)
    ensures Framed(k, a + b) == Framed(k, a) + Framed(k, b)
  {
    hide Encode;
    if a == [] {
      assert a + b == b;
    } else {
      var rest := a[1..];
      FramedSplits(k, rest, b);
      assert (a + b)[1..] == rest + b && (a + b)[0] == a[0];
      Associates(Encode(k, a[0]), Framed(k, rest), Framed(k, b));
    }
  }

  lemma {:induction false} EncodeInjective(k: nat, u: nat, v: nat)
    requires u < Pow256(k) && v < Pow256(k) && Encode(k, u) == Encode(k, v)
    ensures u == v
  {
    DecodeEncode(k, u);
    DecodeEncode(k, v);
  }

  lemma SplitEqual(a: Bytes, b: Bytes, c: Bytes, d: Bytes)
    requires a + b == c + d && |a| == |c|
    ensures a == c && b == d
  {
    assert a == (a + b)[..|a|] && c == (c + d)[..|c|];
    assert b == (a + b)[|a|..] && d == (c + d)[|c|..];
  }

  /** What trimming does to a part that frames `vs`: it yields the first value and frames the rest. */
  lemma {:induction false} TrimYieldsFirst(k: nat, vs: seq<nat>, val: nat, rest: Bytes)
    requires Fits(k, vs) && vs != [] && val < Pow256(k)
    requires Framed(k, vs) == Encode(k, val) + rest
    ensures val == vs[0] && rest == Framed(k, vs[1..])
  {
    SplitEqual(Encode(k, vs[0]), Framed(k, vs[1..]), Encode(k, val), rest);
    EncodeInjective(k, vs[0], val);
  }

  lemma {:induction false} ChopYieldsLast(k: nat, vs: seq<nat>, val: nat, rest: Bytes)
    requires Fits(k, vs) && vs != [] && val < Pow256(k)
    requires Framed(k, vs) == rest + Encode(k, val)
    ensures val == vs[|vs| - 1] && rest == Framed(k, vs[..|vs| - 1])
  {
    var init, last := vs[..|vs| - 1], vs[|vs| - 1];
    assert init + [last] == vs;
    FramedSplits(k, init, [last]);
    assert Framed(k, [last]) == Encode(k, last) + Framed(k, []) == Encode(k, last);
    SplitEqual(Framed(k, init), Encode(k, last), rest, Encode(k, val));
    EncodeInjective(k, last, val);
  }

  lemma FramedAround(k: nat, front: nat, vs: seq<nat>, back: nat)
    ensures Encode(k, front) + Framed(k, vs) + Encode(k, back) == Framed(k, [front] + vs + [back])
  {
    hide Framed, Encode;
    var first := [front] + vs;
    FramedSplits(k, [front], vs);
    FramedSplits(k, first, [back]);
    FramedOne(k, front);
    FramedOne(k, back);
  }

  lemma Inside(front: nat, vs: seq<nat>, back: nat)
    ensures var all := [front] + vs + [back];
            |all| == |vs| + 2 && all[0] == front && all[1..] == vs + [back]
    ensures var rest := vs + [back];
            |rest| == |vs| + 1 && rest[|vs|] == back && rest[..|vs|] == vs
  {
  }

  lemma FramedOne(k: nat, v: nat)
    ensures Framed(k, [v]) == Encode(k, v)
  {
    assert Framed(k, [v]) == Encode(k, v) + Framed(k, []);
  }

  /** Integers inserted at the front and appended at the back come out at either end as from a deque. */
  method Deque(part: Part, k: nat, ghost vs: seq<nat>, front: nat, back: nat) returns (first: nat, last: nat)
    requires part.bytes == Framed(k, vs) && Fits(k, vs) && front < Pow256(k) && back < Pow256(k)
    modifies part
    ensures first == front && last == back && part.bytes == Framed(k, vs)
  {
    hide Framed, Encode;
    FramedAround(k, front, vs, back);
    Inside(front, vs, back);
    var r := part.InsertUint(k, front, true);
    r := part.AppendUint(k, back, true);
    EncodeSize(k, front);
    EncodeSize(k, back);
    r, first := part.TrimUint(k);
    TrimYieldsFirst(k, [front] + vs + [back], first, part.bytes);
    r, last := part.ChopUint(k);
    ChopYieldsLast(k, vs + [back], last, part.bytes);
  }

  lemma EncodeSize(k: nat, v: nat)
    ensures |Encode(k, v)| == k
  {
  }
}
