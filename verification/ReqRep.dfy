/** The date exchange of the request/reply demo, in which the server answers in the request's own buffer. */
module ReqRep {
  import opened Bytes
  import opened BigEndian

  const DATECMD: nat := 1

  /** A `time_t` and the unsigned value it is sent as. */
  function ToUint64(t: int): (u: nat)
    ensures u < TWO_64 && (u - t) % TWO_64 == 0
  {
    t % TWO_64
  }

  function ToTime(u: nat): (t: int)
    requires u < TWO_64
    ensures -TWO_64 / 2 <= t < TWO_64 / 2 && (t - u) % TWO_64 == 0
  {
    if u < TWO_64 / 2 then u else u - TWO_64
  }

  predicate IsDateRequest(s: Bytes) {
    |s| == 8 && Decode(s) == DATECMD
  }

  /** One turn of the server's loop on a received buffer: `answers` says whether the buffer is sent back. */
  method Serve(buf: array<Byte>, now: int) returns (answers: bool)
    modifies buf
    ensures answers <==> IsDateRequest(old(buf[..]))
    ensures answers ==> buf[..] == Encode(8, ToUint64(now))
    ensures !answers ==> buf[..] == old(buf[..])
  {
    if buf.Length != 8 {
      return false;
    }
    var val := Get64(buf);
    assert buf[..8] == buf[..];
    if val != DATECMD {
      return false;
    }
    Put64(buf, ToUint64(now));
    assert buf[..8] == buf[..];
    return true;
  }

  method MakeRequest() returns (cmd: array<Byte>)
    ensures fresh(cmd) && cmd.Length == 8 && cmd[..] == Encode(8, DATECMD)
  {
    cmd := new Byte[8];
    Put64(cmd, DATECMD);
    assert cmd[..8] == cmd[..];
  }

  /** What the client makes of a reply; `None` is its wrong-size message. */
  method ReadReply(buf: array<Byte>) returns (now: Option<int>)
    ensures now == if buf.Length == 8 then Some(ToTime(Decode(buf[..]))) else None
  {
    if buf.Length != 8 {
      return None;
    }
    var u := Get64(buf);
    assert buf[..8] == buf[..];
    return Some(ToTime(u));
  }

  lemma EightBytes()
    ensures Pow256(8) == TWO_64
  {
    assert Pow256(2) == 0x1_0000;
    assert Pow256(4) == 0x1_0000_0000;
    assert Pow256(6) == 0x1_0000_0000_0000;
  }

  /** Encoding and decoding are inverse on all 64-bit values and all arrays of eight bytes. */
  lemma Inverse(u: nat, s: Bytes)
    requires u < TWO_64 && |s| == 8
    ensures Decode(Encode(8, u)) == u && Encode(8, Decode(s)) == s && Decode(s) < TWO_64
  {
    EightBytes();
    DecodeEncode(8, u);
    EncodeDecode(s);
  }

  /** The date command in its eight bytes. */
  lemma RequestBytes()
    ensures Encode(8, DATECMD) == [0, 0, 0, 0, 0, 0, 0, 1]
  {
    ShiftsAreEncode(DATECMD, [0, 0, 0, 0, 0, 0, 0, 1]);
  }

  /** The request the client makes is the only eight-byte buffer the server answers. */
  lemma OnlyTheRequestIsAnswered(s: Bytes)
    ensures IsDateRequest(s) <==> s == Encode(8, DATECMD)
    ensures IsDateRequest(s) <==> s == [0, 0, 0, 0, 0, 0, 0, 1]
  {
    RequestBytes();
    Inverse(DATECMD, Encode(8, DATECMD));
    if |s| == 8 {
      Inverse(DATECMD, s);
    }
  }

  lemma TimeSurvives(t: int)
    requires -TWO_64 / 2 <= t < TWO_64 / 2
    ensures ToTime(Decode(Encode(8, ToUint64(t)))) == t
  {
    Inverse(ToUint64(t), Encode(8, 0));
  }

  /** For every 64-bit time the client reads back exactly the time the server wrote into the request's buffer. */
  method Exchange(now: int) returns (seen: Option<int>)
    requires -TWO_64 / 2 <= now < TWO_64 / 2
    ensures seen == Some(now)
  {
    var buf := MakeRequest();
    OnlyTheRequestIsAnswered(buf[..]);
    var answered := Serve(buf, now);
    TimeSurvives(now);
    seen := ReadReply(buf);
  }
}
