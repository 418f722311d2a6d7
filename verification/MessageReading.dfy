/** The cursor-advancing readers of src/message_reading.c. */
module MessageReading {
  import opened Wire
  import opened Bits
  import opened Usercmd

  /** A 32-bit word as a C `int`. */
  function SignedLong(v: int): int {
    if v % 0x1_0000_0000 < BIT31 then v % 0x1_0000_0000 else v % 0x1_0000_0000 - 0x1_0000_0000
  }

  /** The fields of struct qw_connection the readers use. */
  class MessageReader {
    var data: seq<byte>
    var readcount: nat
    var badread: bool
    const v26: bool

    constructor (protocol26: bool)
      ensures v26 == protocol26 && data == [] && Place() == Cursor(0, false)
    {
      v26, data, readcount, badread := protocol26, [], 0, false;
    }

    function Place(): Cursor
      reads this
    {
      Cursor(readcount, badread)
    }

    /** MSG_BeginReading, on a new message. */
    method BeginReading(message: seq<byte>)
      modifies this
      ensures data == message && Place() == Cursor(0, false)
    {
      data, readcount, badread := message, 0, false;
    }

    method ReadByte() returns (v: int)
      modifies `readcount, `badread
      ensures (v, Place()) == Usercmd.ReadByte(data, old(Place()))
    {
      if readcount + 1 > |data| {
        badread := true;
        return -1;
      }
      v := data[readcount];
      readcount := readcount + 1;
    }

    method ReadChar() returns (v: int)
      modifies `readcount, `badread
      ensures (v, Place()) == Usercmd.ReadChar(data, old(Place()))
    {
      if readcount + 1 > |data| {
        badread := true;
        return -1;
      }
      v := data[readcount];
      if v >= 128 {
        v := v - 256;
      }
      readcount := readcount + 1;
    }

    method ReadShort() returns (v: int)
      modifies `readcount, `badread
      ensures (v, Place()) == Usercmd.ReadShort(data, old(Place()))
    {
      if readcount + 2 > |data| {
        badread := true;
        return -1;
      }
      v := JoinShort(data[readcount], data[readcount + 1]);
      readcount := readcount + 2;
    }

    /** A message that has four bytes left is read as the signed value of exactly those bytes. */
    method ReadLong() returns (v: int)
      modifies `readcount, `badread
      ensures old(readcount) + 4 > |data| ==> v == -1 && badread && readcount == old(readcount)
      ensures old(readcount) + 4 <= |data| ==> readcount == old(readcount) + 4 && badread == old(badread)
      ensures forall n | 0 <= n < 0x1_0000_0000 && At(data, old(readcount), LE32(n)) :: v == SignedLong(n)
    {
      if readcount + 4 > |data| {
        badread := true;
        return -1;
      }
      v := SignedLong(Long(data, readcount));
      forall n | 0 <= n < 0x1_0000_0000 && At(data, readcount, LE32(n))
        ensures Long(data, readcount) == n
      {
        LongReadsBack(data, readcount, n);
      }
      readcount := readcount + 4;
    }

    /** Field `k`, if it is there. */
    method ReadField(bits: nat, from: Received, k: nat) returns (move: Received)
      requires k < FIELDS
      modifies `readcount, `badread
      ensures ReadFields(v26, data, old(Place()), bits, from, k) == ReadFields(v26, data, Place(), bits, move, k + 1)
    {
      hide Usercmd.ReadByte, Usercmd.ReadShort, Usercmd.ReadChar, Put, Bit;
      move := from;
      if Present(v26, bits, k) {
        var v;
        if k < 3 || (k < 6 && !v26) {
          v := ReadShort();
        } else if k < 6 {
          v := ReadChar();
          v := 8 * v;
        } else {
          v := ReadByte();
        }
        move := Put(move, k, v);
      }
    }

    method ReadDeltaUsercmd(from: Received) returns (move: Received)
      modifies `readcount, `badread
      ensures (move, Place()) == ReadDelta(v26, data, old(Place()), from)
    {
      hide Usercmd.ReadByte, ReadFields, Bit, MaskOf;
      var v := ReadByte();
      var bits := MaskOf(v);
      move := ReadField(bits, from, 0);
      move := ReadField(bits, move, 1);
      move := ReadField(bits, move, 2);
      move := ReadField(bits, move, 3);
      move := ReadField(bits, move, 4);
      move := ReadField(bits, move, 5);
      move := ReadField(bits, move, 6);
      move := ReadField(bits, move, 7);
      NoFieldsLeft(v26, data, Place(), bits, move);
      if !v26 || Bit(bits, MSEC_BIT) {
        v := ReadByte();
        move := move.(msec := v);
      }
    }
  }

  lemma LongReadsBack(m: seq<byte>, pos: nat, n: nat)
    requires n < 0x1_0000_0000 && At(m, pos, LE32(n))
    ensures Long(m, pos) == n
  {
    FourBytes(n);
    var b := LE32(n);
    assert forall i | 0 <= i < 4 :: m[pos..pos + 4][i] == b[i];
    assert m[pos] == m[pos..pos + 4][0] && m[pos + 1] == m[pos..pos + 4][1];
    assert m[pos + 2] == m[pos..pos + 4][2] && m[pos + 3] == m[pos..pos + 4][3];
  }
}
