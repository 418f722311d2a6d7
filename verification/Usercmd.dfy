/** Movement commands on the wire: WriteDeltaUsercmd of src/netqw.c against MSG_ReadDeltaUsercmd of
    src/message_reading.c. */
module Usercmd {
  import opened Wire
  import opened Bits
  import opened HuffmanPacket

  type short = x: int | -32768 <= x < 32768

  /** usercmd_t; angles are exact numbers. */
  datatype Cmd = Cmd(msec: byte, pitch: real, yaw: real, roll: real,
                     forwardmove: short, sidemove: short, upmove: short, buttons: byte, impulse: byte)

  const ZERO := Cmd(0, 0.0, 0.0, 0.0, 0, 0, 0, 0, 0)

  /** What arrives: an angle is the signed 16-bit number MSG_ReadAngle16 scales back. */
  datatype Received = Received(msec: int, pitch: int, yaw: int, roll: int,
                               forwardmove: int, sidemove: int, upmove: int, buttons: int, impulse: int)

  // ---- Numbers ----

  function Truncate(x: real): int {
    if x >= 0.0 then x.Floor else -((-x).Floor)
  }

  /** Q_rint */
  function Rint(x: real): int {
    if x > 0.0 then Truncate(x + 0.5) else Truncate(x - 0.5)
  }

  /** Two's complement in 16 bits. */
  function Signed(v: int): short {
    var u := v % 65536;
    if u < 32768 then u else u - 65536
  }

  /** An angle as WriteAngle16 sends it. */
  function Quantise(angle: real): short {
    Signed(Rint(angle * 65536.0 / 360.0))
  }

  function ShortBytes(v: int): (r: seq<byte>)
    ensures |r| == 2
  {
    [v % 256, v / 256 % 256]
  }

  function JoinShort(b0: int, b1: int): short {
    Signed(b0 + 256 * b1)
  }

  lemma ShortRoundTrip(v: short)
    ensures JoinShort(ShortBytes(v)[0], ShortBytes(v)[1]) == v
  {
    var q := v / 256;
    assert v == 256 * q + v % 256;
    assert q == 256 * (q / 256) + q % 256;
  }

  function Quantised(c: Cmd): Received {
    Received(c.msec, Quantise(c.pitch), Quantise(c.yaw), Quantise(c.roll),
             c.forwardmove, c.sidemove, c.upmove, c.buttons, c.impulse)
  }

  // ---- The eight optional fields, in the order they are written ----

  const FIELDS := 8

  /** The bit of the mask that announces field `k`: CM_ANGLE1, CM_ANGLE2, CM_ANGLE3, CM_FORWARD,
      CM_SIDE, CM_UP, CM_BUTTONS, CM_IMPULSE. */
  function FlagOf(k: nat): nat
    requires k < FIELDS
  {
    match k case 0 => 0 case 1 => 7 case 2 => 1 case 3 => 2 case 4 => 3 case 5 => 4 case 6 => 5 case _ => 6
  }

  /** The field that mask bit `b` announces. */
  function FieldOf(b: nat): nat
    requires b < 8
  {
    match b case 0 => 0 case 1 => 2 case 2 => 3 case 3 => 4 case 4 => 5 case 5 => 6 case 6 => 7 case _ => 1
  }

  predicate Differs(from: Cmd, cmd: Cmd, k: nat)
    requires k < FIELDS
  {
    match k
    case 0 => cmd.pitch != from.pitch
    case 1 => cmd.yaw != from.yaw
    case 2 => cmd.roll != from.roll
    case 3 => cmd.forwardmove != from.forwardmove
    case 4 => cmd.sidemove != from.sidemove
    case 5 => cmd.upmove != from.upmove
    case 6 => cmd.buttons != from.buttons
    case _ => cmd.impulse != from.impulse
  }

  function Get(r: Received, k: nat): int
    requires k < FIELDS
  {
    match k
    case 0 => r.pitch case 1 => r.yaw case 2 => r.roll case 3 => r.forwardmove
    case 4 => r.sidemove case 5 => r.upmove case 6 => r.buttons case _ => r.impulse
  }

  function Put(r: Received, k: nat, v: int): Received
    requires k < FIELDS
  {
    match k
    case 0 => r.(pitch := v) case 1 => r.(yaw := v) case 2 => r.(roll := v) case 3 => r.(forwardmove := v)
    case 4 => r.(sidemove := v) case 5 => r.(upmove := v) case 6 => r.(buttons := v) case _ => r.(impulse := v)
  }

  predicate IsShort(k: nat) {
    k < 6
  }

  function Size(k: nat): nat {
    if IsShort(k) then 2 else 1
  }

  function FieldBytes(cmd: Cmd, k: nat): seq<byte>
    requires k < FIELDS
  {
    match k
    case 6 => [cmd.buttons]
    case 7 => [cmd.impulse]
    case _ => ShortBytes(Get(Quantised(cmd), k))
  }

  /** The bytes of the first `k` fields that differ. */
  function Parts(from: Cmd, cmd: Cmd, k: nat): (r: seq<byte>)
    requires k <= FIELDS
    ensures |r| <= if k <= 6 then 2 * k else k + 6
  {
    if k == 0 then []
    else Parts(from, cmd, k - 1) + (if Differs(from, cmd, k - 1) then FieldBytes(cmd, k - 1) else [])
  }

  function Flags(from: Cmd, cmd: Cmd): (b: seq<bool>)
    ensures |b| == 8
  {
    seq(8, b requires 0 <= b < 8 => Differs(from, cmd, FieldOf(b)))
  }

  function Mask(from: Cmd, cmd: Cmd): (v: byte) {
    FromBitsBound(Flags(from, cmd));
    SmallPowers();
    FromBits(Flags(from, cmd))
  }

  /** The delta from `from` to `cmd`. */
  function Delta(from: Cmd, cmd: Cmd): (r: seq<byte>)
    ensures 2 <= |r| <= 16
  {
    [Mask(from, cmd)] + Parts(from, cmd, FIELDS) + [cmd.msec]
  }

  lemma MaskTells(from: Cmd, cmd: Cmd, k: nat)
    requires k < FIELDS
    ensures Bit(Mask(from, cmd), FlagOf(k)) == Differs(from, cmd, k)
  {
    BitOfFromBits(Flags(from, cmd), FlagOf(k));
    assert FieldOf(FlagOf(k)) == k;
  }

  // ---- Writing ----

  function One(from: Cmd, cmd: Cmd, k: nat): nat
    requires k < FIELDS
  {
    if Differs(from, cmd, k) then 1 else 0
  }

  /** The flag of field `k`: CM_ANGLE1 and so on. */
  function FlagValue(k: nat): byte
    requires k < FIELDS
  {
    match k case 0 => 1 case 1 => 128 case 2 => 2 case 3 => 4 case 4 => 8 case 5 => 16 case 6 => 32 case _ => 64
  }

  lemma FlagBit(k: nat, b: nat)
    requires k < FIELDS
    ensures Bit(FlagValue(k), b) == (b == FlagOf(k))
  {
    var f := FlagOf(k);
    FlagIsShift(k);
    BitOfShl(1, f, b);
    if b > f {
      BitOfZero(b - f - 1);
    }
  }

  lemma FlagIsShift(k: nat)
    requires k < FIELDS
    ensures FlagValue(k) == Shl(1, FlagOf(k))
  {
    assert Shl(1, 3) == Shl(2, 2) == Shl(4, 1) == Shl(8, 0);
    assert Shl(1, 7) == Shl(2, 6) == Shl(4, 5) == Shl(8, 4) == Shl(16, 3) == Shl(32, 2) == Shl(64, 1) == Shl(128, 0);
    assert Shl(1, 6) == Shl(2, 5) == Shl(4, 4) == Shl(8, 3) == Shl(16, 2) == Shl(32, 1);
    assert Shl(1, 5) == Shl(2, 4) == Shl(4, 3) == Shl(8, 2);
    assert Shl(1, 4) == Shl(2, 3) == Shl(4, 2);
  }

  /** The mask after the tests of the first `k` fields. */
  function Ored(from: Cmd, cmd: Cmd, k: nat): nat
    requires k <= FIELDS
  {
    if k == 0 then 0
    else if Differs(from, cmd, k - 1) then Or(Ored(from, cmd, k - 1), FlagValue(k - 1))
    else Ored(from, cmd, k - 1)
  }

  /** A bit is set exactly when its field has been tested and differs. */
  lemma {:induction false} OredBit(from: Cmd, cmd: Cmd, k: nat, b: nat)
    requires k <= FIELDS && b < 8
    ensures Bit(Ored(from, cmd, k), b) == (FieldOf(b) < k && Differs(from, cmd, FieldOf(b)))
  {
    hide Differs, FieldOf, FlagOf, FlagValue;
    if k == 0 {
      BitOfZero(b);
    } else {
      OredBit(from, cmd, k - 1, b);
      BitOfOr(Ored(from, cmd, k - 1), FlagValue(k - 1), b);
      FlagBit(k - 1, b);
      FieldsAndFlags(k - 1, b);
    }
  }

  lemma FieldsAndFlags(k: nat, b: nat)
    requires k < FIELDS && b < 8
    ensures b == FlagOf(k) <==> FieldOf(b) == k
  {
  }

  lemma {:induction false} OredBound(from: Cmd, cmd: Cmd, k: nat)
    requires k <= FIELDS
    ensures Ored(from, cmd, k) < 256
  {
    SmallPowers();
    if k > 0 {
      OredBound(from, cmd, k - 1);
      OrBound(Ored(from, cmd, k - 1), FlagValue(k - 1), 8);
    }
  }

  /** All eight flags or-ed together are the mask. */
  lemma OredIsMask(from: Cmd, cmd: Cmd)
    ensures Ored(from, cmd, FIELDS) == Mask(from, cmd)
  {
    hide Ored, Differs;
    SmallPowers();
    OredBound(from, cmd, FIELDS);
    forall b: nat | b < 8 ensures Bit(Ored(from, cmd, FIELDS), b) == Bit(Mask(from, cmd), b) {
      OredBit(from, cmd, FIELDS, b);
      BitOfFromBits(Flags(from, cmd), b);
    }
    SameBits(Ored(from, cmd, FIELDS), Mask(from, cmd), 8);
  }

  /** `if (the field differs) bits |= FLAG` */
  method OrFlag(bits: byte, from: Cmd, cmd: Cmd, k: nat) returns (r: byte)
    requires k < FIELDS && bits == Ored(from, cmd, k)
    ensures r == Ored(from, cmd, k + 1)
  {
    hide Differs, FlagValue;
    OredBound(from, cmd, k + 1);
    r := if Differs(from, cmd, k) then Or(bits, FlagValue(k)) else bits;
  }

  /** The eight tests at the head of WriteDeltaUsercmd. */
  method CollectFlags(from: Cmd, cmd: Cmd) returns (bits: byte)
    ensures bits == Mask(from, cmd)
  {
    NothingOred(from, cmd);
    hide Ored, Differs, Mask;
    bits := OrFlag(0, from, cmd, 0);
    bits := OrFlag(bits, from, cmd, 1);
    bits := OrFlag(bits, from, cmd, 2);
    bits := OrFlag(bits, from, cmd, 3);
    bits := OrFlag(bits, from, cmd, 4);
    bits := OrFlag(bits, from, cmd, 5);
    bits := OrFlag(bits, from, cmd, 6);
    bits := OrFlag(bits, from, cmd, 7);
    OredIsMask(from, cmd);
  }

  lemma NothingOred(from: Cmd, cmd: Cmd)
    ensures Ored(from, cmd, 0) == 0
  {
  }

  /** Store `bytes` at `at` if `present`. */
  method Emit(buf: array<byte>, at: nat, present: bool, bytes: seq<byte>) returns (next: nat)
    requires at + |bytes| <= buf.Length
    modifies buf
    ensures next == if present then at + |bytes| else at
    ensures buf[..at] == old(buf[..at]) && buf[next..] == old(buf[next..])
    ensures buf[at..next] == if present then bytes else []
  {
    next := at;
    if present {
      forall i | 0 <= i < |bytes| {
        buf[at + i] := bytes[i];
      }
      next := at + |bytes|;
    }
  }

  /** The buffer from `start` holds the mask and the first `k` fields; the rest is untouched. */
  ghost predicate Laid(m0: seq<byte>, m: seq<byte>, start: nat, i: nat, from: Cmd, cmd: Cmd, k: nat)
    requires k <= FIELDS && |m| == |m0|
  {
    && start < i <= |m| && i == start + 1 + |Parts(from, cmd, k)|
    && m[..start] == m0[..start] && m[start] == Mask(from, cmd)
    && m[start + 1..i] == Parts(from, cmd, k) && m[i..] == m0[i..]
  }

  /** `if (bits & FLAG) { store the field }` */
  method EmitField(ghost m0: seq<byte>, buf: array<byte>, ghost start: nat, i: nat, bits: byte,
                   ghost from: Cmd, cmd: Cmd, k: nat) returns (j: nat)
    requires k < FIELDS && |m0| == buf.Length && bits == Mask(from, cmd)
    requires i + Size(k) <= buf.Length && Laid(m0, buf[..], start, i, from, cmd, k)
    modifies buf
    ensures Laid(m0, buf[..], start, j, from, cmd, k + 1) && j <= i + Size(k)
  {
    hide Mask, Differs, FieldBytes;
    MaskTells(from, cmd, k);
    FieldWidth(cmd, k);
    ghost var before := buf[..];
    j := Emit(buf, i, Bit(bits, FlagOf(k)), FieldBytes(cmd, k));
    assert buf[start + 1..j] == before[start + 1..i] + buf[i..j] by {
      assert buf[start + 1..i] == buf[..i][start + 1..] == before[start + 1..i];
    }
    assert buf[..start] == buf[..i][..start] && buf[start] == buf[..i][start] == before[start];
    assert buf[j..] == before[j..] == before[i..][j - i..] == m0[i..][j - i..];
  }

  /** The three angles. */
  method EmitAngles(ghost m0: seq<byte>, buf: array<byte>, ghost start: nat, i: nat, bits: byte,
                    ghost from: Cmd, cmd: Cmd) returns (j: nat)
    requires |m0| == buf.Length && bits == Mask(from, cmd)
    requires i + 6 <= buf.Length && Laid(m0, buf[..], start, i, from, cmd, 0)
    modifies buf
    ensures Laid(m0, buf[..], start, j, from, cmd, 3) && j <= i + 6
  {
    hide Laid, Mask;
    j := EmitField(m0, buf, start, i, bits, from, cmd, 0);
    j := EmitField(m0, buf, start, j, bits, from, cmd, 1);
    j := EmitField(m0, buf, start, j, bits, from, cmd, 2);
  }

  /** Forward, sideways and upward movement. */
  method EmitMoves(ghost m0: seq<byte>, buf: array<byte>, ghost start: nat, i: nat, bits: byte,
                   ghost from: Cmd, cmd: Cmd) returns (j: nat)
    requires |m0| == buf.Length && bits == Mask(from, cmd)
    requires i + 6 <= buf.Length && Laid(m0, buf[..], start, i, from, cmd, 3)
    modifies buf
    ensures Laid(m0, buf[..], start, j, from, cmd, 6) && j <= i + 6
  {
    hide Laid, Mask;
    j := EmitField(m0, buf, start, i, bits, from, cmd, 3);
    j := EmitField(m0, buf, start, j, bits, from, cmd, 4);
    j := EmitField(m0, buf, start, j, bits, from, cmd, 5);
  }

  /** WriteDeltaUsercmd, at index `start` of a buffer. */
  method WriteDeltaUsercmd(buf: array<byte>, start: nat, from: Cmd, cmd: Cmd) returns (i: nat)
    requires start + 16 <= buf.Length
    modifies buf
    ensures i == start + |Delta(from, cmd)| && buf[start..i] == Delta(from, cmd)
    ensures buf[..start] == old(buf[..start]) && buf[i..] == old(buf[i..])
  {
    hide Mask, Differs, FieldBytes;
    PartsOfNone(from, cmd);
    ghost var m0 := buf[..];
    var bits := CollectFlags(from, cmd);
    buf[start] := bits;
    i := start + 1;
    assert Laid(m0, buf[..], start, i, from, cmd, 0);
    hide Laid, Delta, Parts;
    i := EmitAngles(m0, buf, start, i, bits, from, cmd);
    i := EmitMoves(m0, buf, start, i, bits, from, cmd);
    i := EmitField(m0, buf, start, i, bits, from, cmd, 6);
    i := EmitField(m0, buf, start, i, bits, from, cmd, 7);
    ghost var before := buf[..];
    buf[i] := cmd.msec;
    assert buf[..][i := m0[i]] == before by { LaidKeepsTail(m0, before, start, i, from, cmd); }
    LaidDelta(m0, buf[..], start, i, from, cmd);
    i := i + 1;
  }

  lemma LaidKeepsTail(m0: seq<byte>, m: seq<byte>, start: nat, i: nat, from: Cmd, cmd: Cmd)
    requires |m| == |m0| && i < |m| && Laid(m0, m, start, i, from, cmd, FIELDS)
    ensures m[i] == m0[i]
  {
    hide Mask, Parts;
    assert m[i] == m[i..][0] == m0[i..][0];
  }

  lemma LaidDelta(m0: seq<byte>, m: seq<byte>, start: nat, i: nat, from: Cmd, cmd: Cmd)
    requires |m| == |m0| && i < |m| && m[i] == cmd.msec && Laid(m0, m[i := m0[i]], start, i, from, cmd, FIELDS)
    ensures i + 1 == start + |Delta(from, cmd)| && m[start..i + 1] == Delta(from, cmd)
    ensures m[..start] == m0[..start] && m[i + 1..] == m0[i + 1..]
  {
    hide Mask, Parts;
    var w := m[i := m0[i]];
    assert m[start + 1..i] == w[start + 1..i] && m[..start] == w[..start] && m[start] == w[start];
    assert m[start..i + 1] == [m[start]] + m[start + 1..i] + [m[i]];
    assert m[i + 1..] == w[i + 1..] == w[i..][1..] == m0[i..][1..];
  }

  lemma FieldWidth(cmd: Cmd, k: nat)
    requires k < FIELDS
    ensures |FieldBytes(cmd, k)| == Size(k)
  {
  }

  // ---- Reading ----

  /** msg_readcount and msg_badread. */
  datatype Cursor = Cursor(pos: nat, bad: bool)

  /** MSG_ReadByte */
  function ReadByte(m: seq<byte>, c: Cursor): (int, Cursor) {
    if c.pos + 1 > |m| then (-1, c.(bad := true)) else (m[c.pos] as int, c.(pos := c.pos + 1))
  }

  /** MSG_ReadChar */
  function ReadChar(m: seq<byte>, c: Cursor): (int, Cursor) {
    if c.pos + 1 > |m| then (-1, c.(bad := true))
    else
      var b: int := m[c.pos];
      (if b < 128 then b else b - 256, c.(pos := c.pos + 1))
  }

  /** MSG_ReadShort */
  function ReadShort(m: seq<byte>, c: Cursor): (int, Cursor) {
    if c.pos + 2 > |m| then (-1, c.(bad := true))
    else (JoinShort(m[c.pos], m[c.pos + 1]) as int, c.(pos := c.pos + 2))
  }

  /** The value bits of field `k`: protocol 26 sends movement as a char scaled by eight. */
  function ReadValue(v26: bool, m: seq<byte>, c: Cursor, k: nat): (int, Cursor) {
    if k < 3 || (k < 6 && !v26) then ReadShort(m, c)
    else if k < 6 then var (v, d) := ReadChar(m, c); (8 * v, d)
    else ReadByte(m, c)
  }

  /** Protocol 26 always sends the second angle. */
  predicate Present(v26: bool, bits: nat, k: nat)
    requires k < FIELDS
  {
    (v26 && k == 1) || Bit(bits, FlagOf(k))
  }

  /** The fields from `k` on, each read if it is there. */
  function ReadFields(v26: bool, m: seq<byte>, c: Cursor, bits: nat, r: Received, k: nat): (Received, Cursor)
    requires k <= FIELDS
    decreases FIELDS - k
  {
    if k == FIELDS then (r, c)
    else if !Present(v26, bits, k) then ReadFields(v26, m, c, bits, r, k + 1)
    else
      var (v, d) := ReadValue(v26, m, c, k);
      ReadFields(v26, m, d, bits, Put(r, k, v), k + 1)
  }

  /** The -1 of a failed read has every bit set. */
  function MaskOf(v: int): nat {
    v % 256
  }

  /** CM_MSEC */
  const MSEC_BIT := 7

  /** The trailing frame time, always sent except by protocol 26. */
  function ReadMsec(v26: bool, m: seq<byte>, c: Cursor, bits: nat, r: Received): (Received, Cursor) {
    if v26 && !Bit(bits, MSEC_BIT) then (r, c)
    else var (msec, d) := ReadByte(m, c); (r.(msec := msec), d)
  }

  /** MSG_ReadDeltaUsercmd */
  function ReadDelta(v26: bool, m: seq<byte>, c: Cursor, from: Received): (Received, Cursor) {
    var (v, c1) := ReadByte(m, c);
    var bits := MaskOf(v);
    var (r, c2) := ReadFields(v26, m, c1, bits, from, 0);
    ReadMsec(v26, m, c2, bits, r)
  }

  /** `m` has the bytes `b` at `pos`. */
  predicate At(m: seq<byte>, pos: nat, b: seq<byte>) {
    pos + |b| <= |m| && m[pos..pos + |b|] == b
  }

  lemma AtSplit(m: seq<byte>, pos: nat, a: seq<byte>, b: seq<byte>)
    requires At(m, pos, a + b)
    ensures At(m, pos, a) && At(m, pos + |a|, b)
  {
    assert m[pos..pos + |a|] == (a + b)[..|a|];
    assert m[pos + |a|..pos + |a| + |b|] == (a + b)[|a|..];
  }

  lemma ShortReadsBack(m: seq<byte>, c: Cursor, v: short)
    requires At(m, c.pos, ShortBytes(v))
    ensures ReadShort(m, c) == (v as int, c.(pos := c.pos + 2))
  {
    var b := ShortBytes(v);
    assert m[c.pos] == m[c.pos..c.pos + 2][0] == b[0];
    assert m[c.pos + 1] == m[c.pos..c.pos + 2][1] == b[1];
    ShortRoundTrip(v);
  }

  lemma ByteReadsBack(m: seq<byte>, c: Cursor, v: byte)
    requires At(m, c.pos, [v])
    ensures ReadByte(m, c) == (v as int, c.(pos := c.pos + 1))
  {
    assert m[c.pos] == m[c.pos..c.pos + 1][0];
  }

  /** A present field is read back as its quantised value. */
  lemma FieldReadsBack(m: seq<byte>, c: Cursor, cmd: Cmd, k: nat)
    requires k < FIELDS && At(m, c.pos, FieldBytes(cmd, k))
    ensures ReadValue(false, m, c, k).0 == Get(Quantised(cmd), k)
    ensures ReadValue(false, m, c, k).1 == c.(pos := c.pos + |FieldBytes(cmd, k)|)
  {
    hide ReadShort, ReadByte, At, Quantise;
    FieldWidth(cmd, k);
    match k {
      case 6 => ByteReadsBack(m, c, cmd.buttons);
      case 7 => ByteReadsBack(m, c, cmd.impulse);
      case _ => ShortReadsBack(m, c, Get(Quantised(cmd), k));
    }
  }

  /** What the reader holds after `k` fields: those of `cmd`, then those of `from`. */
  ghost predicate Merged(r: Received, from: Cmd, cmd: Cmd, k: nat) {
    && r.msec == from.msec
    && forall j: nat | j < FIELDS :: Get(r, j) == Get(Quantised(if j < k then cmd else from), j)
  }

  lemma MergeField(r: Received, from: Cmd, cmd: Cmd, k: nat)
    requires k < FIELDS && Merged(r, from, cmd, k)
    ensures Merged(if Differs(from, cmd, k) then Put(r, k, Get(Quantised(cmd), k)) else r, from, cmd, k + 1)
  {
    if !Differs(from, cmd, k) {
      SameField(from, cmd, k);
    }
    hide Quantised, Get, Put, Differs;
    forall j: nat | j < FIELDS {
      PutGet(r, k, Get(Quantised(cmd), k), j);
    }
  }

  lemma SameField(from: Cmd, cmd: Cmd, k: nat)
    requires k < FIELDS && !Differs(from, cmd, k)
    ensures Get(Quantised(cmd), k) == Get(Quantised(from), k)
  {
  }

  lemma PutGet(r: Received, k: nat, v: int, j: nat)
    requires k < FIELDS && j < FIELDS
    ensures Get(Put(r, k, v), j) == if j == k then v else Get(r, j)
    ensures Put(r, k, v).msec == r.msec
  {
  }

  lemma MergedAll(r: Received, from: Cmd, cmd: Cmd)
    requires Merged(r, from, cmd, FIELDS)
    ensures r.(msec := cmd.msec) == Quantised(cmd)
  {
    hide Quantise;
    var q := Quantised(cmd);
    assert Get(r, 0) == Get(q, 0) && Get(r, 1) == Get(q, 1) && Get(r, 2) == Get(q, 2) && Get(r, 3) == Get(q, 3)
           && Get(r, 4) == Get(q, 4) && Get(r, 5) == Get(q, 5) && Get(r, 6) == Get(q, 6) && Get(r, 7) == Get(q, 7);
  }

  lemma PartsStep(from: Cmd, cmd: Cmd, m: seq<byte>, pos: nat, k: nat)
    requires k < FIELDS && At(m, pos, Parts(from, cmd, k + 1)) && Differs(from, cmd, k)
    ensures At(m, pos + |Parts(from, cmd, k)|, FieldBytes(cmd, k))
    ensures |Parts(from, cmd, k + 1)| == |Parts(from, cmd, k)| + |FieldBytes(cmd, k)|
  {
    hide FieldBytes, Differs;
    AtSplit(m, pos, Parts(from, cmd, k), FieldBytes(cmd, k));
  }

  lemma {:induction false} PartsPrefix(from: Cmd, cmd: Cmd, k: nat)
    requires k <= FIELDS
    ensures Parts(from, cmd, k) <= Parts(from, cmd, FIELDS)
    decreases FIELDS - k
  {
    hide FieldBytes, Differs;
    if k < FIELDS {
      PartsPrefix(from, cmd, k + 1);
    }
  }

  lemma PartsAt(from: Cmd, cmd: Cmd, m: seq<byte>, pos: nat, k: nat)
    requires k <= FIELDS && At(m, pos, Parts(from, cmd, FIELDS))
    ensures At(m, pos, Parts(from, cmd, k))
  {
    hide Parts;
    PartsPrefix(from, cmd, k);
    var (all, some) := (Parts(from, cmd, FIELDS), Parts(from, cmd, k));
    assert all == some + all[|some|..];
    AtSplit(m, pos, some, all[|some|..]);
  }

  /** One field further. */
  lemma FieldStep(m: seq<byte>, base: nat, bad: bool, from: Cmd, cmd: Cmd, r: Received, k: nat)
    requires k < FIELDS && At(m, base, Parts(from, cmd, k + 1))
    ensures ReadFields(false, m, Cursor(base + |Parts(from, cmd, k)|, bad), Mask(from, cmd), r, k)
            == ReadFields(false, m, Cursor(base + |Parts(from, cmd, k + 1)|, bad), Mask(from, cmd),
                          if Differs(from, cmd, k) then Put(r, k, Get(Quantised(cmd), k)) else r, k + 1)
  {
    hide Mask, FieldBytes, Differs, Put, Get, ReadValue, At, Quantised;
    MaskTells(from, cmd, k);
    if Differs(from, cmd, k) {
      PartsStep(from, cmd, m, base, k);
      FieldReadsBack(m, Cursor(base + |Parts(from, cmd, k)|, bad), cmd, k);
    }
  }

  lemma {:induction false} FieldsReadBack(m: seq<byte>, base: nat, bad: bool, from: Cmd, cmd: Cmd,
                                          r: Received, k: nat)
    requires k <= FIELDS && At(m, base, Parts(from, cmd, FIELDS)) && Merged(r, from, cmd, k)
    ensures var (out, d) := ReadFields(false, m, Cursor(base + |Parts(from, cmd, k)|, bad), Mask(from, cmd), r, k);
            Merged(out, from, cmd, FIELDS) && d == Cursor(base + |Parts(from, cmd, FIELDS)|, bad)
    decreases FIELDS - k
  {
    hide *;
    if k == FIELDS {
      NoFieldsLeft(false, m, Cursor(base + |Parts(from, cmd, k)|, bad), Mask(from, cmd), r);
    } else {
      MergeField(r, from, cmd, k);
      PartsAt(from, cmd, m, base, k + 1);
      FieldStep(m, base, bad, from, cmd, r, k);
      var next := if Differs(from, cmd, k) then Put(r, k, Get(Quantised(cmd), k)) else r;
      FieldsReadBack(m, base, bad, from, cmd, next, k + 1);
    }
  }

  lemma NoFieldsLeft(v26: bool, m: seq<byte>, c: Cursor, bits: nat, r: Received)
    ensures ReadFields(v26, m, c, bits, r, FIELDS) == (r, c)
  {
  }

  /** Reading a delta against the command it was taken from gives the new command, and consumes
      exactly the bytes written. */
  lemma DeltaRoundTrip(m: seq<byte>, pos: nat, bad: bool, from: Cmd, cmd: Cmd)
    requires At(m, pos, Delta(from, cmd))
    ensures ReadDelta(false, m, Cursor(pos, bad), Quantised(from))
            == (Quantised(cmd), Cursor(pos + |Delta(from, cmd)|, bad))
  {
    hide Mask, Parts, ReadFields, Quantise;
    var p := Parts(from, cmd, FIELDS);
    AtSplit(m, pos, [Mask(from, cmd)] + p, [cmd.msec]);
    AtSplit(m, pos, [Mask(from, cmd)], p);
    assert m[pos] == m[pos..pos + 1][0] && m[pos + 1 + |p|] == m[pos + 1 + |p|..pos + 1 + |p| + 1][0];
    assert Parts(from, cmd, 0) == [] by { PartsOfNone(from, cmd); }
    FieldsReadBack(m, pos + 1, bad, from, cmd, Quantised(from), 0);
    var (r, d) := ReadFields(false, m, Cursor(pos + 1, bad), Mask(from, cmd), Quantised(from), 0);
    MergedAll(r, from, cmd);
  }

  lemma PartsOfNone(from: Cmd, cmd: Cmd)
    ensures Parts(from, cmd, 0) == []
  {
  }

  // ---- Protocol 26 ----

  /** How many bytes the reader takes for field `k` of this delta. */
  function Width(v26: bool, from: Cmd, cmd: Cmd, k: nat): nat
    requires k < FIELDS
  {
    if !(v26 && k == 1) && !Differs(from, cmd, k) then 0
    else if k < 3 || (k < 6 && !v26) then 2 else 1
  }

  function Widths(v26: bool, from: Cmd, cmd: Cmd, k: nat): nat
    requires k <= FIELDS
    decreases FIELDS - k
  {
    if k == FIELDS then 0 else Width(v26, from, cmd, k) + Widths(v26, from, cmd, k + 1)
  }

  lemma {:induction false} FieldsConsume(v26: bool, m: seq<byte>, c: Cursor, from: Cmd, cmd: Cmd, r: Received, k: nat)
    requires k <= FIELDS && c.pos + Widths(v26, from, cmd, k) <= |m|
    ensures ReadFields(v26, m, c, Mask(from, cmd), r, k).1 == c.(pos := c.pos + Widths(v26, from, cmd, k))
    decreases FIELDS - k
  {
    hide Mask, Differs, Put, JoinShort;
    if k < FIELDS {
      MaskTells(from, cmd, k);
      if Present(v26, Mask(from, cmd), k) {
        var (v, d) := ReadValue(v26, m, c, k);
        FieldsConsume(v26, m, d, from, cmd, Put(r, k, v), k + 1);
      } else {
        FieldsConsume(v26, m, c, from, cmd, r, k + 1);
      }
    }
  }

  /** How many of ANGLE2, FORWARD, SIDE and UP the delta carries. */
  function Disputed(from: Cmd, cmd: Cmd): nat {
    One(from, cmd, 1) + One(from, cmd, 3) + One(from, cmd, 4) + One(from, cmd, 5)
  }

  lemma PartLength(from: Cmd, cmd: Cmd, k: nat)
    requires k < FIELDS
    ensures |Parts(from, cmd, k + 1)| == |Parts(from, cmd, k)| + Width(false, from, cmd, k)
  {
    hide Differs, FieldBytes;
    FieldWidth(cmd, k);
  }

  lemma {:induction false} PartsLength(from: Cmd, cmd: Cmd, k: nat)
    requires k <= FIELDS
    ensures |Parts(from, cmd, FIELDS)| == |Parts(from, cmd, k)| + Widths(false, from, cmd, k)
    decreases FIELDS - k
  {
    hide Differs, Parts;
    if k < FIELDS {
      PartLength(from, cmd, k);
      PartsLength(from, cmd, k + 1);
    }
  }

  lemma WidthsSum(v26: bool, from: Cmd, cmd: Cmd)
    ensures Widths(v26, from, cmd, 0)
            == Width(v26, from, cmd, 0) + Width(v26, from, cmd, 1) + Width(v26, from, cmd, 2) + Width(v26, from, cmd, 3)
            + Width(v26, from, cmd, 4) + Width(v26, from, cmd, 5) + Width(v26, from, cmd, 6) + Width(v26, from, cmd, 7)
  {
    hide Width;
    assert Widths(v26, from, cmd, 6) == Width(v26, from, cmd, 6) + Width(v26, from, cmd, 7);
    assert Widths(v26, from, cmd, 3) == Width(v26, from, cmd, 3) + Width(v26, from, cmd, 4) + Width(v26, from, cmd, 5)
                                      + Widths(v26, from, cmd, 6);
  }

  lemma WidthsDiffer(from: Cmd, cmd: Cmd)
    ensures Widths(true, from, cmd, 0) + One(from, cmd, 1) + Disputed(from, cmd)
            == Widths(false, from, cmd, 0) + 2
  {
    hide Differs, Widths;
    WidthsSum(true, from, cmd);
    WidthsSum(false, from, cmd);
  }

  /** The same reader set to protocol 26 drifts by the disputed fields: with a byte to spare it ends
      where the writer did if and only if exactly one of the four is present. */
  lemma Protocol26Drifts(m: seq<byte>, pos: nat, bad: bool, from: Cmd, cmd: Cmd, r: Received)
    requires At(m, pos, Delta(from, cmd)) && pos + |Delta(from, cmd)| < |m|
    ensures var d := ReadDelta(true, m, Cursor(pos, bad), r).1;
            && d.pos + Disputed(from, cmd) == pos + |Delta(from, cmd)| + 1 && d.bad == bad
            && (d.pos == pos + |Delta(from, cmd)| <==> Disputed(from, cmd) == 1)
  {
    hide Mask, Parts, ReadFields, Differs, Widths;
    var p := Parts(from, cmd, FIELDS);
    AtSplit(m, pos, [Mask(from, cmd)] + p, [cmd.msec]);
    AtSplit(m, pos, [Mask(from, cmd)], p);
    assert m[pos] == m[pos..pos + 1][0];
    PartsOfNone(from, cmd);
    PartsLength(from, cmd, 0);
    WidthsDiffer(from, cmd);
    MaskTells(from, cmd, 1);
    FieldsConsume(true, m, Cursor(pos + 1, bad), from, cmd, r, 0);
  }

  // ---- Three commands a packet ----

  /** The redundant commands of one packet, oldest first, each relative to the one before. */
  function Chain(c2: Cmd, c1: Cmd, c0: Cmd): seq<byte> {
    Delta(ZERO, c2) + Delta(c2, c1) + Delta(c1, c0)
  }

  /** The three calls of WriteDeltaUsercmd in NetQW_Thread_DoSend. */
  method WriteChain(buf: array<byte>, start: nat, c2: Cmd, c1: Cmd, c0: Cmd) returns (i: nat)
    requires start + 48 <= buf.Length
    modifies buf
    ensures start <= i <= start + 48 && buf[start..i] == Chain(c2, c1, c0)
    ensures buf[..start] == old(buf[..start])
  {
    hide Delta;
    var i1 := WriteDeltaUsercmd(buf, start, ZERO, c2);
    ghost var m1 := buf[..];
    var i2 := WriteDeltaUsercmd(buf, i1, c2, c1);
    ghost var m2 := buf[..];
    i := WriteDeltaUsercmd(buf, i2, c1, c0);
    assert m2[..i1] == m1[..i1] && buf[..i2] == m2[..i2];
    SameSlice(m2, m1, start, i1, i1);
    SameSlice(buf[..], m2, start, i1, i2);
    SameSlice(buf[..], m2, i1, i2, i2);
    assert buf[start..i] == buf[start..i1] + buf[i1..i2] + buf[i2..i];
    SameSlice(m2, m1, 0, start, i1);
    SameSlice(buf[..], m2, 0, start, i2);
  }

  lemma SameSlice(m: seq<byte>, w: seq<byte>, a: nat, b: nat, n: nat)
    requires a <= b <= n <= |m| && n <= |w| && m[..n] == w[..n]
    ensures m[a..b] == w[a..b]
  {
    assert m[a..b] == m[..n][a..b] && w[a..b] == w[..n][a..b];
  }

  /** The receiver's three reads. */
  function ReadChain(m: seq<byte>, c: Cursor): (Received, Received, Received, Cursor) {
    var (r2, d2) := ReadDelta(false, m, c, Quantised(ZERO));
    var (r1, d1) := ReadDelta(false, m, d2, r2);
    var (r0, d0) := ReadDelta(false, m, d1, r1);
    (r2, r1, r0, d0)
  }

  /** Decoded from the zero command, a packet yields exactly its three commands. */
  lemma ChainRoundTrip(m: seq<byte>, pos: nat, bad: bool, c2: Cmd, c1: Cmd, c0: Cmd)
    requires At(m, pos, Chain(c2, c1, c0))
    ensures ReadChain(m, Cursor(pos, bad))
            == (Quantised(c2), Quantised(c1), Quantised(c0), Cursor(pos + |Chain(c2, c1, c0)|, bad))
  {
    hide Delta, ReadDelta, Quantised, At;
    AtSplit(m, pos, Delta(ZERO, c2) + Delta(c2, c1), Delta(c1, c0));
    AtSplit(m, pos, Delta(ZERO, c2), Delta(c2, c1));
    DeltaRoundTrip(m, pos, bad, ZERO, c2);
    DeltaRoundTrip(m, pos + |Delta(ZERO, c2)|, bad, c2, c1);
    DeltaRoundTrip(m, pos + |Delta(ZERO, c2)| + |Delta(c2, c1)|, bad, c1, c0);
  }

  // ---- What arrives of a command ----

  /** MSG_ReadAngle16: sixteen bits are a full turn. */
  function ReadAngle(v: int): real {
    v as real * (360.0 / 65536.0)
  }

  /** Half a step of such an angle. */
  const HALF_STEP := 180.0 / 65536.0

  /** `got` is `angle` up to whole turns and rounding: the nearest step, and of two equally near ones the one
      further from zero. */
  ghost predicate Nearest(angle: real, got: real) {
    exists turns: int :: NearestAfter(angle, got, turns)
  }

  predicate NearestAfter(angle: real, got: real, turns: int) {
    var unwound := got + turns as real * 360.0;
    && angle - HALF_STEP <= unwound <= angle + HALF_STEP
    && (unwound == angle - HALF_STEP ==> angle <= 0.0) && (unwound == angle + HALF_STEP ==> angle >= 0.0)
  }

  /** Within half of the number, and away from zero where that leaves a choice. */
  lemma RintIsNearest(x: real)
    ensures x - 0.5 <= Rint(x) as real <= x + 0.5
    ensures Rint(x) as real == x - 0.5 ==> x <= 0.0
    ensures Rint(x) as real == x + 0.5 ==> x >= 0.0
  {
  }

  lemma SignedWraps(v: int)
    ensures v == Signed(v) + 65536 * ((v - Signed(v)) / 65536)
  {
  }

  /** What an angle is sent as, scaled back. */
  lemma AngleArrives(angle: real)
    ensures Nearest(angle, ReadAngle(Quantise(angle)))
  {
    var x := angle * 65536.0 / 360.0;
    var v := Rint(x);
    var turns := (v - Signed(v)) / 65536;
    RintIsNearest(x);
    SignedWraps(v);
    Unwound(Signed(v), turns);
    assert NearestAfter(angle, ReadAngle(Signed(v)), turns);
  }

  /** No other sixteen bits would do. */
  lemma AngleIsPinned(angle: real, v: short)
    ensures Nearest(angle, ReadAngle(v)) <==> v == Quantise(angle)
  {
    AngleArrives(angle);
    if Nearest(angle, ReadAngle(v)) {
      var w: int := Quantise(angle);
      var j: int :| NearestAfter(angle, ReadAngle(v), j);
      var k: int :| NearestAfter(angle, ReadAngle(w), k);
      Unwound(v, j);
      Unwound(w, k);
      SameStep(angle, v + 65536 * j, w + 65536 * k);
    }
  }

  lemma Unwound(v: int, turns: int)
    ensures ReadAngle(v + 65536 * turns) == ReadAngle(v) + turns as real * 360.0
  {
    assert (v + 65536 * turns) as real == v as real + 65536.0 * turns as real;
  }

  lemma SameStep(angle: real, a: int, b: int)
    requires NearestAfter(angle, ReadAngle(a), 0) && NearestAfter(angle, ReadAngle(b), 0)
    ensures a == b
  {
  }

  /** The command the reader holds is the one that was sent: angles to the nearest step, all else exactly. */
  ghost predicate Faithful(r: Received, c: Cmd) {
    && r.msec == c.msec && r.buttons == c.buttons && r.impulse == c.impulse
    && r.forwardmove == c.forwardmove && r.sidemove == c.sidemove && r.upmove == c.upmove
    && Nearest(c.pitch, ReadAngle(r.pitch)) && Nearest(c.yaw, ReadAngle(r.yaw)) && Nearest(c.roll, ReadAngle(r.roll))
  }

  lemma QuantisedIsFaithful(c: Cmd)
    ensures Faithful(Quantised(c), c)
  {
    AngleArrives(c.pitch);
    AngleArrives(c.yaw);
    AngleArrives(c.roll);
  }

  /** A packet decoded from the zero command: the three commands that went in, faithfully. */
  lemma CommandsArrive(m: seq<byte>, pos: nat, bad: bool, c2: Cmd, c1: Cmd, c0: Cmd)
    requires At(m, pos, Chain(c2, c1, c0))
    ensures var (r2, r1, r0, d) := ReadChain(m, Cursor(pos, bad));
            && Faithful(r2, c2) && Faithful(r1, c1) && Faithful(r0, c0)
            && d == Cursor(pos + |Chain(c2, c1, c0)|, bad)
  {
    hide Faithful, Quantised, ReadChain, Chain, At;
    ChainRoundTrip(m, pos, bad, c2, c1, c0);
    QuantisedIsFaithful(c2);
    QuantisedIsFaithful(c1);
    QuantisedIsFaithful(c0);
  }

  // ---- Messages that end too soon ----

  /** The bytes that the fields from `k` on take. */
  function Wanted(v26: bool, bits: nat, k: nat): nat
    requires k <= FIELDS
    decreases FIELDS - k
  {
    if k == FIELDS then 0
    else (if Present(v26, bits, k) then (if k < 3 || (k < 6 && !v26) then 2 else 1) else 0) + Wanted(v26, bits, k + 1)
  }

  /** The bytes a whole delta with this mask takes. */
  function DeltaLength(v26: bool, bits: nat): nat {
    1 + Wanted(v26, bits, 0) + (if v26 && !Bit(bits, MSEC_BIT) then 0 else 1)
  }

  lemma {:induction false} FieldsRunOut(v26: bool, m: seq<byte>, c: Cursor, bits: nat, r: Received, k: nat)
    requires k <= FIELDS && c.pos <= |m|
    ensures var d := ReadFields(v26, m, c, bits, r, k).1;
            && d.pos <= |m| && (d.bad <==> c.bad || c.pos + Wanted(v26, bits, k) > |m|)
            && (c.pos + Wanted(v26, bits, k) <= |m| ==> d.pos == c.pos + Wanted(v26, bits, k))
    decreases FIELDS - k
  {
    hide Bit, Put, JoinShort;
    if k < FIELDS {
      if Present(v26, bits, k) {
        var (v, d) := ReadValue(v26, m, c, k);
        FieldsRunOut(v26, m, d, bits, Put(r, k, v), k + 1);
      } else {
        FieldsRunOut(v26, m, c, bits, r, k + 1);
      }
    }
  }

  /** The reader never passes the end of the message, and the failure flag is set if and only if the message
      ends before the delta does. */
  lemma ReaderRunsOut(v26: bool, m: seq<byte>, pos: nat, from: Received)
    requires pos <= |m|
    ensures var d := ReadDelta(v26, m, Cursor(pos, false), from).1;
            d.pos <= |m| && (!d.bad <==> pos < |m| && pos + DeltaLength(v26, m[pos]) <= |m|)
  {
    hide ReadFields, Bit, Wanted;
    var (v, c) := ReadByte(m, Cursor(pos, false));
    FieldsRunOut(v26, m, c, MaskOf(v), from, 0);
  }

  lemma AllPresent(k: nat)
    requires k < FIELDS
    ensures Bit(MaskOf(-1), FlagOf(k)) && Bit(MaskOf(-1), MSEC_BIT)
  {
    assert MaskOf(-1) == 255;
    var b := FlagOf(k);
    assert b == 0 || b == 1 || b == 2 || b == 3 || b == 4 || b == 5 || b == 6 || b == 7;
    assert Bit(127, 6) && Bit(63, 5) && Bit(31, 4) && Bit(15, 3) && Bit(7, 2) && Bit(3, 1) && Bit(1, 0);
  }

  lemma {:induction false} EveryFieldFails(v26: bool, m: seq<byte>, c: Cursor, r: Received, k: nat)
    requires k <= FIELDS && c.pos == |m|
    ensures var (out, d) := ReadFields(v26, m, c, MaskOf(-1), r, k);
            && d.pos == |m| && out.msec == r.msec
            && forall j: nat | j < FIELDS ::
                 Get(out, j) == if j < k then Get(r, j) else if v26 && 3 <= j < 6 then -8 else -1
    decreases FIELDS - k
  {
    hide Bit, MaskOf, JoinShort, Get, Put;
    if k < FIELDS {
      AllPresent(k);
      var (v, d) := ReadValue(v26, m, c, k);
      EveryFieldFails(v26, m, d, Put(r, k, v), k + 1);
      forall j: nat | j < FIELDS {
        PutGet(r, k, v, j);
      }
      PutGet(r, k, v, 0);
    }
  }

  /** Behind the end of a message every field reads as minus one; protocol 26 shifts that for the movements. */
  lemma NothingLeftToRead(v26: bool, m: seq<byte>, bad: bool, from: Received)
    ensures var w := if v26 then -8 else -1;
            ReadDelta(v26, m, Cursor(|m|, bad), from)
            == (Received(-1, -1, -1, -1, w, w, w, -1, -1), Cursor(|m|, true))
  {
    hide ReadFields, Bit, MaskOf;
    EveryFieldFails(v26, m, Cursor(|m|, true), from, 0);
    AllPresent(0);
    var (out, d) := ReadFields(v26, m, Cursor(|m|, true), MaskOf(-1), from, 0);
    FieldsStayBad(v26, m, Cursor(|m|, true), MaskOf(-1), from);
    assert Get(out, 0) == -1 && Get(out, 1) == -1 && Get(out, 2) == -1 && Get(out, 6) == -1 && Get(out, 7) == -1;
    assert Get(out, 3) == Get(out, 4) == Get(out, 5) == if v26 then -8 else -1;
  }

  lemma FieldsStayBad(v26: bool, m: seq<byte>, c: Cursor, bits: nat, r: Received)
    requires c.pos <= |m| && c.bad
    ensures ReadFields(v26, m, c, bits, r, 0).1.bad
  {
    FieldsRunOut(v26, m, c, bits, r, 0);
  }

  /** A movement of protocol 26 is a signed byte counting eights. */
  lemma EightsArrive(m: seq<byte>, c: Cursor, k: nat, v: int)
    requires 3 <= k < 6 && c.pos < |m| && -128 <= v < 128
    ensures ReadValue(true, m, c, k) == (8 * v, c.(pos := c.pos + 1)) <==> m[c.pos] == v % 256
  {
  }
}
