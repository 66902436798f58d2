/** The ROT13 loop of the in-process REP server, which overwrites a message body in place. */
module Rot13 {
  import opened Bytes

  predicate IsUpper(b: Byte) { 65 <= b <= 90 }
  predicate IsLower(b: Byte) { 97 <= b <= 122 }

  /** One letter turned by 13 places; every other byte is kept (C locale). */
  function Turn(b: Byte): (r: Byte)
    ensures 65 <= b <= 77 || 97 <= b <= 109 ==> r == b + 13
    ensures 78 <= b <= 90 || 110 <= b <= 122 ==> r == b - 13
    ensures b < 65 || 90 < b < 97 || 122 < b ==> r == b
  {
    if IsUpper(b) then (b - 65 + 13) % 26 + 65
    else if IsLower(b) then (b - 97 + 13) % 26 + 97
    else b
  }

  /** The reference meaning: every byte turned. */
  function Rot13(s: Bytes): (r: Bytes)
    ensures |r| == |s|
    ensures forall i :: 0 <= i < |s| ==> r[i] == Turn(s[i])
  {
    seq(|s|, i requires 0 <= i < |s| => Turn(s[i]))
  }

  /** What the loop leaves behind: it counts an `int` up to the body size converted to `int`. */
  function Loop(s: Bytes): (r: Bytes)
    ensures |r| == |s|
    ensures forall i :: 0 <= i < |s| ==> r[i] == if i < ToInt32(|s|) then Turn(s[i]) else s[i]
  {
    seq(|s|, i requires 0 <= i < |s| => if i < ToInt32(|s|) then Turn(s[i]) else s[i])
  }

  method Rot13InPlace(body: array<Byte>)
    modifies body
    ensures body[..] == Loop(old(body[..]))
  {
    var size := ToInt32(body.Length);
    var i := 0;
    while i < size
      invariant 0 <= i && (0 <= size ==> i <= size <= body.Length) && (size < 0 ==> i == 0)
      invariant forall k :: 0 <= k < body.Length ==>
                              body[k] == if k < i then Turn(old(body[k])) else old(body[k])
    {
      if IsUpper(body[i]) {
        var base := body[i] - 65;
        base := (base + 13) % 26;
        body[i] := base + 65;
      } else if IsLower(body[i]) {
        var base := body[i] - 97;
        base := (base + 13) % 26;
        body[i] := base + 97;
      }
      i := i + 1;
    }
  }

  lemma TurnTwice(b: Byte)
    ensures Turn(Turn(b)) == b
  {
    if IsUpper(b) {
      assert Turn(b) == if b < 78 then b + 13 else b - 13;
    } else if IsLower(b) {
      assert Turn(b) == if b < 110 then b + 13 else b - 13;
    }
  }

  /** ROT13 applied twice restores the body. */
  lemma Involution(s: Bytes)
    ensures Rot13(Rot13(s)) == s
  {
    var r := Rot13(Rot13(s));
    forall i | 0 <= i < |s| ensures r[i] == s[i] {
      TurnTwice(s[i]);
    }
  }

  /** The loop is ROT13 on every body of a given size exactly when that size fits an `int`. */
  lemma LoopIsRot13Iff(n: nat)
    ensures (forall s: Bytes :: |s| == n ==> Loop(s) == Rot13(s)) <==> n < TWO_31
  {
    if n >= TWO_31 {
      var s: Bytes := seq(n, _ => 65);
      assert ToInt32(n) <= n - 1;
      assert Loop(s)[n - 1] == 65 && Rot13(s)[n - 1] == 78;
    }
  }
}
