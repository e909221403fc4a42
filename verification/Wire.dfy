// The reliable layer's frame layout: 13 header bytes, then the control message.

module Wire {
  import opened Basics
  import opened Seq

  const FRAME_HEADER_LEN := 13
  const EPOCH_SPAN := 0x1_0000_0000_0000_0000

  type Epoch = n: int | 0 <= n < 0x1_0000_0000_0000_0000

  // `ack` is the field as sent: one before zero stands for "nothing received".
  datatype Frame = Frame(seqNo: Seq16, ack: Seq16, epoch: Epoch, payload: Option<Bytes>)

  function Pow256(width: nat): (p: nat)
    ensures p > 0
  {
    if width == 0 then 1 else 256 * Pow256(width - 1)
  }

  function ToLittleEndian(n: nat, width: nat): (b: Bytes)
    ensures |b| == width
  {
    if width == 0 then [] else [n % 256] + ToLittleEndian(n / 256, width - 1)
  }

  function FromLittleEndian(b: Bytes): (n: nat)
    ensures n < Pow256(|b|)
  {
    if b == [] then 0 else b[0] + 256 * FromLittleEndian(b[1..])
  }

  lemma {:induction false} LittleEndianRoundTrip(n: nat, width: nat)
    requires n < Pow256(width)
    ensures FromLittleEndian(ToLittleEndian(n, width)) == n
  {
    if width > 0 {
      var b := ToLittleEndian(n, width);
      assert b[1..] == ToLittleEndian(n / 256, width - 1);
      LittleEndianRoundTrip(n / 256, width - 1);
    }
  }

  lemma EpochFitsEightBytes()
    ensures Pow256(2) == SPAN && Pow256(8) == EPOCH_SPAN
  {
    assert Pow256(2) == 256 * Pow256(1);
    assert Pow256(4) == 256 * (256 * Pow256(2));
    assert Pow256(6) == 256 * (256 * Pow256(4));
    assert Pow256(8) == 256 * (256 * Pow256(6));
  }

  function Encode(f: Frame): (b: Bytes)
    ensures |b| >= FRAME_HEADER_LEN
  {
    ToLittleEndian(f.seqNo, 2)
    + ToLittleEndian(f.ack, 2)
    + [if f.payload.Some? then 1 else 0]
    + ToLittleEndian(f.epoch, 8)
    + (if f.payload.Some? then f.payload.value else [])
  }

  // None for a runt. Bit 0 of the flags alone says whether a payload follows.
  function Decode(b: Bytes): Option<Frame> {
    if |b| < FRAME_HEADER_LEN then None
    else
      EpochFitsEightBytes();
      Some(Frame(
             FromLittleEndian(b[0..2]),
             FromLittleEndian(b[2..4]),
             FromLittleEndian(b[5..13]),
             if b[4] % 2 == 1 then Some(b[FRAME_HEADER_LEN..]) else None))
  }

  /** What is built is what is read. */
  lemma DecodeEncode(f: Frame)
    ensures Decode(Encode(f)) == Some(f)
  {
    EpochFitsEightBytes();
    var b := Encode(f);
    assert b[0..2] == ToLittleEndian(f.seqNo, 2);
    assert b[2..4] == ToLittleEndian(f.ack, 2);
    assert b[5..13] == ToLittleEndian(f.epoch, 8);
    LittleEndianRoundTrip(f.seqNo, 2);
    LittleEndianRoundTrip(f.ack, 2);
    LittleEndianRoundTrip(f.epoch, 8);
    assert f.payload.Some? ==> b[FRAME_HEADER_LEN..] == f.payload.value;
  }

  // Where each field lies: two words, the flag, eight bytes of epoch, the rest.
  lemma FrameLayout(f: Frame)
    ensures var b := Encode(f);
            && |b| == FRAME_HEADER_LEN + (if f.payload.Some? then |f.payload.value| else 0)
            && b[0] as int + 256 * b[1] as int == f.seqNo && b[2] as int + 256 * b[3] as int == f.ack
            && b[4] == (if f.payload.Some? then 1 else 0)
            && FromLittleEndian(b[5..13]) == f.epoch
            && (f.payload.Some? ==> b[13..] == f.payload.value)
  {
    var b := Encode(f);
    EpochFitsEightBytes();
    LittleEndianRoundTrip(f.epoch, 8);
    assert b[5..13] == ToLittleEndian(f.epoch, 8);
    TwoBytes(f.seqNo);
    TwoBytes(f.ack);
    assert b[0..2] == ToLittleEndian(f.seqNo, 2) && b[2..4] == ToLittleEndian(f.ack, 2);
    assert b[0] == b[0..2][0] && b[1] == b[0..2][1] && b[2] == b[2..4][0] && b[3] == b[2..4][1];
  }

  lemma TwoBytes(n: Seq16)
    ensures var b := ToLittleEndian(n, 2); b[0] as int + 256 * b[1] as int == n
  {
    assert ToLittleEndian(n, 2)[1] == (n / 256) % 256;
  }
}
