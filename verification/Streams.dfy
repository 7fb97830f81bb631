/** The buffered socket writer and reader. A `send` transmits its whole buffer or fails; a `read`
    returns 1 to 32 bytes, asks to be called again, or finds the stream closed. */
module Streams {
  import opened Basics
  import opened Wire

  const WSIZE: nat := 32
  const RSIZE: nat := 32

  /** `after` is `before` followed by some of `bytes`, from the front. */
  predicate Extends(before: Bytes, after: Bytes, bytes: Bytes) { before <= after <= before + bytes }

  lemma NoPart(before: Bytes)
    ensures Extends(before, before, []) && before + [] == before
  {
  }

  /** Writing `bytes` in two parts: stopping in the first part, and stopping in the second. */
  lemma FirstPart(before: Bytes, a: Bytes, b: Bytes, after: Bytes)
    requires Extends(before, after, a)
    ensures Extends(before, after, a + b)
  {
    assert before + (a + b) == (before + a) + b;
  }

  lemma SecondPart(before: Bytes, a: Bytes, b: Bytes, after: Bytes)
    requires Extends(before + a, after, b)
    ensures Extends(before, after, a + b) && (before + a) + b == before + (a + b)
  {
    assert before + (a + b) == (before + a) + b;
  }

  class TcpWriter {
    const buffer: array<u8>
    var index: nat
    var sent: Bytes          // everything handed to the socket so far
    ghost var broken: bool   // has any `send` failed?

    ghost predicate Valid()
      reads this
    {
      buffer.Length == WSIZE && index <= WSIZE
    }

    /** Everything written so far: what was sent, then what waits in the buffer. */
    ghost function Written(): Bytes
      requires Valid()
      reads this, buffer
    {
      sent + buffer[..index]
    }

    /** The effect of writing `bytes`: exactly them when it succeeds, a prefix of them when a
        `send` fails on the way, and never anything else. */
    twostate predicate Wrote(ok: bool, bytes: Bytes)
      reads this, buffer
    {
      && old(Valid()) && Valid()
      && Extends(old(Written()), Written(), bytes)
      && (ok ==> Written() == old(Written()) + bytes)
      && (old(broken) ==> broken) && (!broken ==> ok)
    }

    constructor ()
      ensures Valid() && fresh(buffer) && Written() == [] && sent == [] && !broken
    {
      buffer := new u8[WSIZE];
      index := 0;
      sent := [];
      broken := false;
    }

    method Flush() returns (ok: bool)
      requires Valid()
      modifies this
      ensures Wrote(ok, [])
      ensures ok ==> index == 0 && sent == old(Written())
      ensures !ok ==> index == old(index) && sent == old(sent)
    {
      ok := *;
      if ok {
        sent := sent + buffer[..index];
        index := 0;
      } else {
        broken := true;
      }
    }

    /** The flush that ends every message. */
    method Deliver(ghost start: Bytes, ghost message: Bytes) returns (ok: bool)
      requires Valid() && Written() == start + message
      modifies this
      ensures Valid() && Extends(start, Written(), message) && Written() == start + message
      ensures ok ==> sent == start + message
      ensures (old(broken) ==> broken) && (!broken ==> ok)
    {
      ok := Flush();
      assert old(Written()) + [] == old(Written());
    }

    method WriteU8(value: u8) returns (ok: bool)
      requires Valid()
      modifies this, buffer
      ensures Wrote(ok, [value])
    {
      if index >= WSIZE {
        ok := Flush();
        if !ok {
          return false;
        }
      }
      ghost var before := buffer[..index];
      buffer[index] := value;
      index := index + 1;
      assert buffer[..index] == before + [value];
      return true;
    }

    /** `write_u16`, `write_u32` and `write_u64`: the low `width` bytes, lowest first. */
    method WriteUint(width: nat, value: nat) returns (ok: bool)
      requires Valid()
      modifies this, buffer
      ensures Wrote(ok, Low(width, value))
    {
      hide Extends;
      var v := value;
      ghost var start := Written();
      ghost var done: Bytes := [];
      NoPart(start);
      for i := 0 to width
        invariant Wrote(true, done)
        invariant Low(width, value) == done + Low(width - i, v)
      {
        ghost var rest := Low(width - i - 1, v / 256);
        assert Low(width, value) == (done + [v % 256]) + rest by {
          assert done + ([v % 256] + rest) == (done + [v % 256]) + rest;
        }
        LowByte(v);
        var temp := And(v, 0xFF);
        ok := WriteU8(temp);
        SecondPart(start, done, [v % 256], Written());
        FirstPart(start, done + [v % 256], rest, Written());
        if !ok {
          return false;
        }
        done := done + [v % 256];
        v := ShiftRight(v, 8);
      }
      assert Low(width, value) == done;
      return true;
    }

    method WriteBytes(bytes: Bytes) returns (ok: bool)
      requires Valid()
      modifies this, buffer
      ensures Wrote(ok, bytes)
    {
      for i := 0 to |bytes|
        invariant Wrote(true, bytes[..i])
      {
        ok := WriteU8(bytes[i]);
        assert bytes[..i + 1] == bytes[..i] + [bytes[i]] && bytes[..i + 1] <= bytes;
        if !ok {
          return false;
        }
      }
      assert bytes[..|bytes|] == bytes;
      return true;
    }

    method WriteByteArray(bytes: Content) returns (ok: bool)
      requires Valid()
      modifies this, buffer
      ensures Wrote(ok, EncodeBytes(bytes))
    {
      hide Extends;
      ghost var start := Written();
      ok := WriteUint(8, |bytes|);
      FirstPart(start, Low(8, |bytes|), bytes, Written());
      if !ok {
        return false;
      }
      ok := WriteBytes(bytes);
      SecondPart(start, Low(8, |bytes|), bytes, Written());
    }

    /** `write_string`: the C string is measured up to its first NUL, then written with its length. */
    method WriteString(s: Content) returns (ok: bool)
      requires Valid()
      modifies this, buffer
      ensures Wrote(ok, EncodeString(s))
    {
      hide Extends;
      var len := 0;
      while len < |s| && s[len] != 0
        invariant 0 <= len <= |s| && NulFrom(s, 0) == NulFrom(s, len)
      {
        len := len + 1;
      }
      ok := WriteByteArray(s[..len]);
    }
  }

  datatype Arrival = Data(bytes: Bytes) | Again

  function Flatten(incoming: seq<Arrival>): Bytes {
    if incoming == [] then []
    else (if incoming[0].Data? then incoming[0].bytes else []) + Flatten(incoming[1..])
  }

  class TcpReader {
    const aBuffer: array<u8>
    const bBuffer: array<u8>
    var index: nat
    var length: nat
    var bufferSwitch: bool
    var incoming: seq<Arrival>   // what the next calls of `read` return; then the stream is closed

    ghost predicate Valid()
      reads this
    {
      && aBuffer.Length == RSIZE && bBuffer.Length == RSIZE && aBuffer != bBuffer && length <= RSIZE
      && forall a :: a in incoming && a.Data? ==> 1 <= |a.bytes| <= RSIZE
    }

    function CurrBuf(): array<u8>
      reads this
    {
      if bufferSwitch then aBuffer else bBuffer
    }

    /** The bytes the caller has yet to see, however the network splits them. */
    ghost function Pending(): Bytes
      requires Valid()
      reads this, aBuffer, bBuffer
    {
      (if index < length then CurrBuf()[index..length] else []) + Flatten(incoming)
    }

    constructor (incoming: seq<Arrival>)
      requires forall a :: a in incoming && a.Data? ==> 1 <= |a.bytes| <= RSIZE
      ensures Valid() && fresh(aBuffer) && fresh(bBuffer) && Pending() == Flatten(incoming)
    {
      aBuffer := new u8[RSIZE];
      bBuffer := new u8[RSIZE];
      index := 0;
      length := 0;
      bufferSwitch := false;
      this.incoming := incoming;
    }

    method FillBuffer() returns (ok: bool)
      requires Valid()
      modifies this, aBuffer, bBuffer
      ensures Valid() && Pending() == old(Pending())
      ensures ok <==> Pending() != []
      ensures ok ==> index < length
    {
      while index >= length
        invariant Valid() && Pending() == old(Pending())
        decreases |incoming|, length - index
      {
        bufferSwitch := !bufferSwitch;
        var buffer := CurrBuf();
        if incoming == [] {
          return false;
        }
        var arrival := incoming[0];
        incoming := incoming[1..];
        if arrival.Again? {
          continue;
        }
        forall i | 0 <= i < |arrival.bytes| {
          buffer[i] := arrival.bytes[i];
        }
        index := 0;
        length := |arrival.bytes|;
        assert CurrBuf()[..length] == arrival.bytes;
      }
      return true;
    }

    method Peek() returns (ok: bool, val: u8)
      requires Valid()
      modifies this, aBuffer, bBuffer
      ensures Valid() && Pending() == old(Pending())
      ensures ok <==> Pending() != []
      ensures ok ==> index < length && val == Pending()[0]
    {
      ok := FillBuffer();
      val := 0;
      if ok {
        val := CurrBuf()[index];
      }
    }

    method Step() returns (ok: bool)
      requires Valid()
      modifies this, aBuffer, bBuffer
      ensures Valid() && (ok <==> old(Pending()) != [])
      ensures Pending() == if ok then old(Pending())[1..] else []
    {
      ok := FillBuffer();
      if ok {
        ghost var now, later := CurrBuf()[index..length], Flatten(incoming);
        index := index + 1;
        assert Pending() == now[1..] + later;
        assert now[1..] + later == (now + later)[1..];
      }
    }

    method ReadU8() returns (ok: bool, val: u8)
      requires Valid()
      modifies this, aBuffer, bBuffer
      ensures Valid() && (ok <==> old(Pending()) != [])
      ensures ok ==> val == old(Pending())[0] && Pending() == old(Pending())[1..]
      ensures !ok ==> Pending() == []
    {
      ok, val := Peek();
      if !ok {
        return;
      }
      ok := Step();
    }

    /** `read_u16`, `read_u32` and `read_u64`. */
    method ReadUint(width: nat) returns (ok: bool, val: nat)
      requires Valid()
      modifies this, aBuffer, bBuffer
      ensures Valid()
      ensures ok ==> ParseUint(width, old(Pending())) == Got(val, Pending())
      ensures !ok ==> ParseUint(width, old(Pending())) == Short && Pending() == []
    {
      val := 0;
      for i := 0 to width
        invariant Valid()
        invariant i <= |old(Pending())| && Pending() == old(Pending())[i..]
        invariant val == Value(old(Pending())[..i])
      {
        var b: u8;
        ok, b := ReadU8();
        if !ok {
          return false, 0;
        }
        assert old(Pending())[..i + 1] == old(Pending())[..i] + [b];
        ValueAppend(old(Pending())[..i], b);
        ByteShifts(i);
        OrIsAdd(val, b, 8 * i);
        val := Or(val, ShiftLeft(b, 8 * i));
      }
      ok := true;
    }

    method ReadBytes(count: nat) returns (ok: bool, bytes: Bytes)
      requires Valid()
      modifies this, aBuffer, bBuffer
      ensures Valid() && (ok <==> count <= |old(Pending())|)
      ensures ok ==> bytes == old(Pending())[..count] && Pending() == old(Pending())[count..]
      ensures !ok ==> Pending() == [] && bytes == []
    {
      bytes := [];
      for i := 0 to count
        invariant Valid() && i <= |old(Pending())|
        invariant bytes == old(Pending())[..i] && Pending() == old(Pending())[i..]
      {
        var b: u8;
        ok, b := ReadU8();
        if !ok {
          return false, [];
        }
        bytes := bytes + [b];
      }
      ok := true;
    }

    /** On a stream that ends inside the length, success is reported and the caller's string kept. */
    method ReadString(previous: Content) returns (ok: bool, val: Content)
      requires Valid()
      modifies this, aBuffer, bBuffer
      ensures Valid()
      ensures ParseBytes(old(Pending())).Got? ==> ok && ParseBytes(old(Pending())) == Got(val, Pending())
      ensures ParseBytes(old(Pending())) == Short ==>
        Pending() == [] && val == previous && ok == (|old(Pending())| < 8)
    {
      var len: nat;
      ok, len := ReadUint(8);
      if !ok {
        return true, previous;
      }
      var str: Bytes;
      ok, str := ReadBytes(len);
      if !ok {
        return false, previous;
      }
      PowersOf256();
      val := str;
    }

    /** A failed length read goes unnoticed: the caller's old length is used. */
    method ReadByteArray(previous: u64) returns (ok: bool, val: Content)
      requires Valid()
      modifies this, aBuffer, bBuffer
      ensures Valid()
      ensures ParseBytes(old(Pending())).Got? ==> ok && ParseBytes(old(Pending())) == Got(val, Pending())
      ensures ParseBytes(old(Pending())) == Short ==>
        Pending() == [] && ok == (|old(Pending())| < 8 && previous == 0) && val == []
    {
      var read, length := ReadUint(8);
      if !read {
        length := previous;
      }
      PowersOf256();
      ok, val := ReadBytes(length);
    }
  }
}
