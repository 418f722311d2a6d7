/** What the compiled client writes between the header of a packet and its reliable buffers: the move
    message, then a delta request and a teleport where there is one (src/netqw.c:746-773). */
module MovePart {
  import opened Wire
  import opened Usercmd

  const CLC_MOVE := 3
  const CLC_DELTA := 5
  const CLC_TMOVE := 6

  /** `checksum` is what COM_BlockSequenceCRCByte makes of the rest of the move message. */
  datatype MoveData = MoveData(checksum: byte, loss: byte, c2: Cmd, c1: Cmd, c0: Cmd,
                               delta: Option<byte>, teleport: Option<seq<byte>>)

  predicate Valid(m: MoveData) {
    m.teleport.Some? ==> |m.teleport.value| == 6
  }

  const STILL := MoveData(0, 0, ZERO, ZERO, ZERO, None, None)

  type Moves = m: MoveData | Valid(m) witness STILL

  function DeltaRequest(d: Option<byte>): seq<byte> {
    match d case None => [] case Some(n) => [CLC_DELTA, n]
  }

  function Teleport(t: Option<seq<byte>>): seq<byte> {
    match t case None => [] case Some(p) => [CLC_TMOVE] + p
  }

  function Bytes(m: Moves): (r: seq<byte>)
    ensures 9 <= |r| <= 60
  {
    [CLC_MOVE, m.checksum, m.loss] + Chain(m.c2, m.c1, m.c0) + DeltaRequest(m.delta) + Teleport(m.teleport)
  }

  lemma {:induction false} NothingDiffers(c: Cmd, k: nat)
    requires k <= FIELDS
    ensures Parts(c, c, k) == []
  {
    if k > 0 {
      NothingDiffers(c, k - 1);
    }
  }

  /** The least of these lengths occurs. */
  lemma StillIsShortest()
    ensures |Bytes(STILL)| == 9
  {
    NothingDiffers(ZERO, FIELDS);
  }

  const ONES := Cmd(1, 1.0, 1.0, 1.0, 1, 1, 1, 1, 1)
  const BUSY := MoveData(0, 0, ONES, ZERO, ONES, Some(0), Some([0, 0, 0, 0, 0, 0]))

  lemma {:induction false} EverythingDiffers(from: Cmd, cmd: Cmd, k: nat)
    requires k <= FIELDS && forall j: nat | j < FIELDS :: Differs(from, cmd, j)
    ensures |Parts(from, cmd, k)| == if k <= 6 then 2 * k else k + 6
  {
    hide Differs;
    if k > 0 {
      EverythingDiffers(from, cmd, k - 1);
      assert Differs(from, cmd, k - 1);
    }
  }

  /** And so does the greatest. */
  lemma BusyIsLongest()
    ensures Valid(BUSY) && |Bytes(BUSY)| == 60
  {
    EverythingDiffers(ZERO, ONES, FIELDS);
    EverythingDiffers(ONES, ZERO, FIELDS);
  }

  /** What a server that goes by the message numbers finds: a move message, then, where the three deltas end, a
      delta request with its number if there is one, and then six bytes of teleport if there is one. */
  lemma ExtrasRead(m: Moves)
    ensures var (b, e) := (Bytes(m), 3 + |Chain(m.c2, m.c1, m.c0)|);
            && e <= |b| && b[..3] == [3, m.checksum, m.loss] && b[3..e] == Chain(m.c2, m.c1, m.c0)
            && ExtrasAre(b[e..], m.delta, m.teleport)
  {
    hide Chain, ExtrasAre;
    InParts([CLC_MOVE, m.checksum, m.loss], Chain(m.c2, m.c1, m.c0), DeltaRequest(m.delta), Teleport(m.teleport));
    RestRead(m.delta, m.teleport);
  }

  /** A delta request with number `d`, then a teleport to `t`, by their message numbers. */
  predicate ExtrasAre(rest: seq<byte>, d: Option<byte>, t: Option<seq<byte>>) {
    var k := if d.Some? then 2 else 0;
    && (rest != [] && rest[0] == 5 <==> d.Some?)
    && k <= |rest| && (d.Some? ==> rest[1] == d.value)
    && (k < |rest| && rest[k] == 6 <==> t.Some?)
    && (if t.Some? then k < |rest| && rest[k + 1..] == t.value else k == |rest|)
  }

  lemma InParts(head: seq<byte>, chain: seq<byte>, d: seq<byte>, t: seq<byte>)
    ensures var b := head + chain + d + t;
            b[..|head|] == head && b[|head|..|head| + |chain|] == chain && b[|head| + |chain|..] == d + t
  {
  }

  lemma RestRead(d: Option<byte>, t: Option<seq<byte>>)
    ensures ExtrasAre(DeltaRequest(d) + Teleport(t), d, t)
  {
  }
}
