/** EVIF, the packet that carries microphone audio: a fixed header in network byte order and PCM samples. */
module VoiceFrames {
  import opened Text
  import opened Octets
  import VadSpec

  datatype VoiceFrame = VoiceFrame(streamId: nat, sequence: nat, capturedAt: nat, format: VadSpec.Format, pcm: seq<byte>)

  const WIDTHS: seq<nat> := [4, 1, 1, 2, 16, 8, 8, 4, 2, 1, 1, 4]
  const HEADER: nat := 52
  const MAGIC: nat := 0x45_56_49_46

  /** What `VoiceInputFrame` and `PcmFormat` demand of themselves. */
  predicate Valid(f: VoiceFrame) {
    && FitsIn(f.streamId, 16) && f.sequence <= MAX_U64 && f.capturedAt <= MAX_U64
    && VadSpec.ValidFormat(f.format)
    && f.pcm != [] && |f.pcm| <= MAX_U32 && |f.pcm| % (2 * f.format.channels) == 0
  }

  function Fields(f: VoiceFrame): seq<nat> {
    [MAGIC, 1, 0, HEADER, f.streamId, f.sequence, f.capturedAt, f.format.sampleRate, f.format.channels, 1, 0, |f.pcm|]
  }

  function Encode(f: VoiceFrame): seq<byte>
    requires Valid(f)
  {
    Pack(WIDTHS, Fields(f)) + f.pcm
  }

  predicate HeaderOk(v: seq<nat>, size: nat, maxPayload: nat)
    requires |v| == |WIDTHS|
  {
    && v[0] == MAGIC && v[1] == 1 && v[2] == 0 && v[3] == HEADER && v[9] == 1 && v[10] == 0
    && v[11] != 0 && v[11] <= maxPayload && size == HEADER + v[11]
  }

  function Assembled(v: seq<nat>, pcm: seq<byte>): VoiceFrame
    requires |v| == |WIDTHS|
  {
    VoiceFrame(v[4], v[5], v[6], VadSpec.Format(v[7], v[8]), pcm)
  }

  /** `decode_voice_input_frame`; `None` is its error. */
  function Decode(packet: seq<byte>, maxPayload: int): Option<VoiceFrame> {
    if !(0 <= maxPayload <= MAX_U32) || |packet| < Sum(WIDTHS) then None
    else
      var v := Unpack(WIDTHS, packet);
      if !HeaderOk(v, |packet|, maxPayload) || |packet| < HEADER then None
      else
        var f := Assembled(v, packet[HEADER..]);
        if Valid(f) then Some(f) else None
  }

  // ---- Both directions ----

  lemma HeaderSize()
    ensures Sum(WIDTHS) == HEADER
  {
    hide Sum, WIDTHS;
    Offsets();
    WidthValues();
    SumSnoc(WIDTHS, 11);
    assert WIDTHS[..12] == WIDTHS;
  }

  lemma FieldsFit(f: VoiceFrame)
    requires Valid(f)
    ensures AllFit(WIDTHS, Fields(f))
  {
    hide FitsIn;
    Fits4(MAGIC);
    Fits1(1);
    Fits1(0);
    Fits2(HEADER);
    Fits8(f.sequence);
    Fits8(f.capturedAt);
    Fits4(f.format.sampleRate);
    Fits2(f.format.channels);
    Fits4(|f.pcm|);
  }

  lemma HeaderAccepted(f: VoiceFrame, maxPayload: nat)
    requires Valid(f) && |f.pcm| <= maxPayload
    ensures |Fields(f)| == |WIDTHS|
    ensures HeaderOk(Fields(f), HEADER + |f.pcm|, maxPayload) && Assembled(Fields(f), f.pcm) == f
  {
    hide FitsIn;
  }

  /** Decoding an encoded frame gives the frame back, if its payload is within the limit. */
  lemma DecodeEncoded(f: VoiceFrame, maxPayload: nat)
    requires Valid(f) && |f.pcm| <= maxPayload <= MAX_U32
    ensures Decode(Encode(f), maxPayload) == Some(f)
  {
    hide Pack, Unpack, Sum, Fields, HeaderOk, Assembled, WIDTHS, AllFit, Valid;
    HeaderAccepted(f, maxPayload);
    FieldsFit(f);
    HeaderSize();
    UnpackPacked(WIDTHS, Fields(f), f.pcm);
    var header := Pack(WIDTHS, Fields(f));
    assert (header + f.pcm)[HEADER..] == f.pcm;
  }

  lemma FieldsOfAssembled(v: seq<nat>, size: nat, maxPayload: nat, pcm: seq<byte>)
    requires |v| == |WIDTHS| && HeaderOk(v, size, maxPayload) && |pcm| == v[11]
    ensures Fields(Assembled(v, pcm)) == v
  {
  }

  lemma PayloadSize(v: seq<nat>, size: nat, maxPayload: nat)
    requires |v| == |WIDTHS| && HeaderOk(v, size, maxPayload)
    ensures |v| == 12 && size == HEADER + v[11]
  {
  }

  /** Every accepted packet is the encoding of the frame it decodes to. */
  lemma EncodeDecoded(packet: seq<byte>, maxPayload: int)
    requires Decode(packet, maxPayload).Some?
    ensures Valid(Decode(packet, maxPayload).value)
    ensures Encode(Decode(packet, maxPayload).value) == packet
  {
    hide Pack, Unpack, Sum, AllFit, Fields, WIDTHS, HeaderOk, FitsIn;
    HeaderSize();
    PackUnpacked(WIDTHS, packet);
    var v := Unpack(WIDTHS, packet);
    PayloadSize(v, |packet|, maxPayload);
    FieldsOfAssembled(v, |packet|, maxPayload, packet[HEADER..]);
    assert packet[..HEADER] + packet[HEADER..] == packet;
  }

  lemma DecodedWithin(packet: seq<byte>, maxPayload: int)
    requires Decode(packet, maxPayload).Some?
    ensures 0 <= maxPayload <= MAX_U32 && |Decode(packet, maxPayload).value.pcm| <= maxPayload
  {
    hide Unpack, Sum, FitsIn, WIDTHS, Valid;
  }

  /** A packet decodes to a frame exactly when it is the encoding of that frame and the payload is within the
      limit. */
  lemma DecodesExactly(packet: seq<byte>, maxPayload: int, f: VoiceFrame)
    ensures Decode(packet, maxPayload) == Some(f) <==>
      Valid(f) && Encode(f) == packet && |f.pcm| <= maxPayload <= MAX_U32
  {
    hide Valid, Encode, Decode;
    if Decode(packet, maxPayload) == Some(f) {
      EncodeDecoded(packet, maxPayload);
      DecodedWithin(packet, maxPayload);
    }
    if Valid(f) && Encode(f) == packet && |f.pcm| <= maxPayload <= MAX_U32 {
      DecodeEncoded(f, maxPayload);
    }
  }

  /** `to_pcm_frame`: what arrives is a frame the detector can take. */
  function ToPcmFrame(f: VoiceFrame): VadSpec.Frame {
    VadSpec.Frame(f.streamId, f.sequence, f.capturedAt, f.format, f.pcm)
  }

  lemma DecodedIsPcmFrame(packet: seq<byte>, maxPayload: int)
    requires Decode(packet, maxPayload).Some?
    ensures VadSpec.ValidFrame(ToPcmFrame(Decode(packet, maxPayload).value))
  {
    hide Unpack, Sum, WIDTHS, HeaderOk, FitsIn, Assembled;
  }

  // ---- The layout ----

  lemma WidthValues()
    ensures |WIDTHS| == 12
    ensures WIDTHS[0] == 4 && WIDTHS[1] == 1 && WIDTHS[2] == 1 && WIDTHS[3] == 2 && WIDTHS[4] == 16 && WIDTHS[5] == 8
    ensures WIDTHS[6] == 8 && WIDTHS[7] == 4 && WIDTHS[8] == 2 && WIDTHS[9] == 1 && WIDTHS[10] == 1 && WIDTHS[11] == 4
  {
  }

  lemma Offsets()
    ensures Sum(WIDTHS[..0]) == 0 && Sum(WIDTHS[..1]) == 4 && Sum(WIDTHS[..2]) == 5 && Sum(WIDTHS[..3]) == 6
    ensures Sum(WIDTHS[..4]) == 8 && Sum(WIDTHS[..5]) == 24 && Sum(WIDTHS[..6]) == 32 && Sum(WIDTHS[..7]) == 40
    ensures Sum(WIDTHS[..8]) == 44 && Sum(WIDTHS[..9]) == 46 && Sum(WIDTHS[..10]) == 47 && Sum(WIDTHS[..11]) == 48
  {
    hide Sum, WIDTHS;
    WidthValues();
    var w := WIDTHS;
    assert w[..0] == [];
    SumOfNothing();
    SumSnoc(w, 0);
    SumSnoc(w, 1);
    SumSnoc(w, 2);
    SumSnoc(w, 3);
    SumSnoc(w, 4);
    SumSnoc(w, 5);
    SumSnoc(w, 6);
    SumSnoc(w, 7);
    SumSnoc(w, 8);
    SumSnoc(w, 9);
    SumSnoc(w, 10);
  }

  lemma FieldAt(f: VoiceFrame, i: nat)
    requires Valid(f) && i < |WIDTHS| == |Fields(f)|
    ensures NumberAt(Encode(f), Sum(WIDTHS[..i]), WIDTHS[i]) == Fields(f)[i]
  {
    hide Pack, Sum, Valid, WIDTHS, Fields, NumberAt, AllFit;
    FieldsFit(f);
    PackedAt(WIDTHS, Fields(f), f.pcm, i);
  }

  lemma FieldValues(f: VoiceFrame)
    ensures |Fields(f)| == 12
    ensures Fields(f)[0] == 0x45_56_49_46 && Fields(f)[1] == 1 && Fields(f)[2] == 0 && Fields(f)[3] == 52
    ensures Fields(f)[4] == f.streamId && Fields(f)[5] == f.sequence && Fields(f)[6] == f.capturedAt
    ensures Fields(f)[7] == f.format.sampleRate && Fields(f)[8] == f.format.channels
    ensures Fields(f)[9] == 1 && Fields(f)[10] == 0 && Fields(f)[11] == |f.pcm|
  {
  }

  /** Where each field stands. */
  lemma Layout(f: VoiceFrame)
    requires Valid(f)
    ensures var packet := Encode(f);
      && NumberAt(packet, 0, 4) == 0x45_56_49_46 && NumberAt(packet, 4, 1) == 1 && NumberAt(packet, 5, 1) == 0
      && NumberAt(packet, 6, 2) == 52 && NumberAt(packet, 8, 16) == f.streamId && NumberAt(packet, 24, 8) == f.sequence
      && NumberAt(packet, 32, 8) == f.capturedAt && NumberAt(packet, 40, 4) == f.format.sampleRate
      && NumberAt(packet, 44, 2) == f.format.channels && NumberAt(packet, 46, 1) == 1 && NumberAt(packet, 47, 1) == 0
      && NumberAt(packet, 48, 4) == |f.pcm| && |packet| == 52 + |f.pcm| && packet[52..] == f.pcm
  {
    HeaderSize();
    hide Valid, Fields, WIDTHS, Sum, NumberAt, Pack;
    FieldValues(f);
    Offsets();
    WidthValues();
    FieldAt(f, 0);
    FieldAt(f, 1);
    FieldAt(f, 2);
    FieldAt(f, 3);
    FieldAt(f, 4);
    FieldAt(f, 5);
    FieldAt(f, 6);
    FieldAt(f, 7);
    FieldAt(f, 8);
    FieldAt(f, 9);
    FieldAt(f, 10);
    FieldAt(f, 11);
  }
}
