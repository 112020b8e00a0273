/** EVAF, the packet that carries synthesized audio: a fixed header in network byte order, the media type in
    ASCII, and the audio. */
module AudioFrames {
  import opened Text
  import opened Octets

  const MAX_PAYLOAD: nat := 16 * 1024 * 1024

  /** Identities are the 128-bit numbers of their UUIDs; `flags` are the three known bits. */
  datatype AudioFrame = AudioFrame(
    sessionId: nat, eventId: nat, correlationId: nat, turnId: nat, segmentId: nat,
    generation: nat, eventSequence: nat, segmentSequence: nat, chunkIndex: nat, sampleRate: nat, channels: nat,
    mediaType: string, audio: seq<byte>, duration: Option<nat>, flags: nat)

  const WIDTHS: seq<nat> := [4, 1, 1, 2, 16, 16, 16, 16, 16, 4, 8, 4, 4, 4, 2, 2, 4, 4]
  const HEADER: nat := 124
  const MAGIC: nat := 0x45_56_41_46

  predicate IsAscii(s: string) {
    forall i | 0 <= i < |s| :: s[i] as int < 128
  }

  function ToAscii(s: string): (bs: seq<byte>)
    requires IsAscii(s)
    ensures |bs| == |s|
  {
    seq(|s|, i requires 0 <= i < |s| => s[i] as int as byte)
  }

  /** Bytes from 128 up are not ASCII. */
  function FromAscii(bs: seq<byte>): Option<string> {
    if forall i | 0 <= i < |bs| :: bs[i] < 128 then Some(seq(|bs|, i requires 0 <= i < |bs| => bs[i] as int as char)) else None
  }

  const AUDIO := "audio/"

  predicate IsMediaType(s: string) {
    && IsAscii(s) && s != "" && |s| <= MAX_U16 && AUDIO <= s
    && forall i | 0 <= i < |s| :: !IsSpace(s[i])
  }

  predicate IsUuid(n: nat) {
    FitsIn(n, 16)
  }

  /** What `AudioFrame` demands of itself. */
  predicate Valid(f: AudioFrame) {
    && IsUuid(f.sessionId) && IsUuid(f.eventId) && IsUuid(f.correlationId) && IsUuid(f.turnId) && IsUuid(f.segmentId)
    && f.generation <= MAX_U32 && f.eventSequence <= MAX_U64 && f.segmentSequence <= MAX_U32 && f.chunkIndex <= MAX_U32
    && 1 <= f.sampleRate <= MAX_U32 && 1 <= f.channels <= MAX_U16
    && (f.duration.Some? ==> f.duration.value <= MAX_U32 - 1)
    && f.flags < 8 && IsMediaType(f.mediaType) && |f.audio| <= MAX_PAYLOAD
  }

  function Fields(f: AudioFrame): seq<nat> {
    [MAGIC, 1, f.flags, HEADER + |f.mediaType|, f.sessionId, f.eventId, f.correlationId, f.turnId, f.segmentId,
     f.generation, f.eventSequence, f.segmentSequence, f.chunkIndex, f.sampleRate, f.channels, |f.mediaType|,
     if f.duration.Some? then f.duration.value else MAX_U32, |f.audio|]
  }

  /** `encode_audio_frame`; `None` is the error of `struct.pack` for a field that does not fit its width. */
  function Encode(f: AudioFrame): Option<seq<byte>>
    requires Valid(f)
  {
    if !AllFit(WIDTHS, Fields(f)) then None
    else Some(Pack(WIDTHS, Fields(f)) + ToAscii(f.mediaType) + f.audio)
  }

  lemma WidthValues()
    ensures |WIDTHS| == 18
    ensures WIDTHS[0] == 4 && WIDTHS[1] == 1 && WIDTHS[2] == 1 && WIDTHS[3] == 2 && WIDTHS[4] == 16 && WIDTHS[5] == 16
    ensures WIDTHS[6] == 16 && WIDTHS[7] == 16 && WIDTHS[8] == 16 && WIDTHS[9] == 4 && WIDTHS[10] == 8 && WIDTHS[11] == 4
    ensures WIDTHS[12] == 4 && WIDTHS[13] == 4 && WIDTHS[14] == 2 && WIDTHS[15] == 2 && WIDTHS[16] == 4 && WIDTHS[17] == 4
  {
  }

  lemma HeaderSize()
    ensures Sum(WIDTHS) == HEADER
  {
    hide Sum, WIDTHS;
    WidthValues();
    var w := WIDTHS;
    assert w[18..] == [];
    SumOfNothing();
    SixOf(w, 12);
    SixOf(w, 6);
    SixOf(w, 0);
    assert w[0..] == w;
  }

  lemma SixOf(w: seq<nat>, i: nat)
    requires i + 6 <= |w|
    ensures Sum(w[i..]) == w[i] + w[i + 1] + w[i + 2] + w[i + 3] + w[i + 4] + w[i + 5] + Sum(w[i + 6..])
  {
    hide Sum;
    SumFrom(w, i);
    SumFrom(w, i + 1);
    SumFrom(w, i + 2);
    SumFrom(w, i + 3);
    SumFrom(w, i + 4);
    SumFrom(w, i + 5);
  }

  function Known(raw: nat): Option<nat> {
    if raw == MAX_U32 then None else Some(raw)
  }

  /** The frame that a header and its two variable parts describe. */
  function Assembled(v: seq<nat>, mediaType: string, audio: seq<byte>): AudioFrame
    requires |v| == |WIDTHS|
  {
    AudioFrame(v[4], v[5], v[6], v[7], v[8], v[9], v[10], v[11], v[12], v[13], v[14], mediaType, audio, Known(v[16]), v[2])
  }

  /** The checks of `decode_audio_frame` on the fixed header. */
  predicate HeaderOk(v: seq<nat>, size: nat, maxPayload: int)
    requires |v| == |WIDTHS|
  {
    && v[0] == MAGIC && v[1] == 1 && v[2] < 8 && v[3] == HEADER + v[15]
    && v[17] <= maxPayload && size == v[3] + v[17]
  }

  function Decode(packet: seq<byte>, maxPayload: int): Option<AudioFrame> {
    if maxPayload < 0 || |packet| < Sum(WIDTHS) then None
    else
      var v := Unpack(WIDTHS, packet);
      if !HeaderOk(v, |packet|, maxPayload) || v[3] < HEADER then None
      else
        match FromAscii(packet[HEADER..v[3]])
        case None => None
        case Some(mediaType) =>
          var f := Assembled(v, mediaType, packet[v[3]..]);
          if Valid(f) then Some(f) else None
  }

  // ---- Both directions ----

  lemma AsciiRoundTrip(s: string)
    requires IsAscii(s)
    ensures FromAscii(ToAscii(s)) == Some(s)
  {
    var bs := ToAscii(s);
    assert forall i | 0 <= i < |s| :: bs[i] as int == s[i] as int;
    var t := FromAscii(bs).value;
    forall i | 0 <= i < |s| ensures t[i] == s[i] {
      assert t[i] as int == bs[i] as int;
    }
    assert t == s;
  }

  lemma AsciiBack(bs: seq<byte>)
    requires FromAscii(bs).Some?
    ensures IsAscii(FromAscii(bs).value) && ToAscii(FromAscii(bs).value) == bs
  {
  }

  lemma FieldsFit(f: AudioFrame)
    requires Valid(f) && HEADER + |f.mediaType| <= MAX_U16
    ensures AllFit(WIDTHS, Fields(f))
  {
    hide FitsIn, IsMediaType;
    Fits4(MAGIC);
    Fits1(1);
    Fits1(f.flags);
    Fits2(HEADER + |f.mediaType|);
    Fits4(f.generation);
    Fits8(f.eventSequence);
    Fits4(f.segmentSequence);
    Fits4(f.chunkIndex);
    Fits4(f.sampleRate);
    Fits2(f.channels);
    Fits2(|f.mediaType|);
    Fits4(if f.duration.Some? then f.duration.value else MAX_U32);
    Fits4(|f.audio|);
  }

  lemma Parts(header: seq<byte>, media: seq<byte>, audio: seq<byte>)
    ensures var all := header + media + audio;
      && all == header + (media + audio)
      && |all| == |header| + |media| + |audio|
      && all[|header|..|header| + |media|] == media && all[|header| + |media|..] == audio
  {
  }

  /** Decoding an encoded frame gives the frame back, if its payload is within the limit. */
  lemma DecodeEncoded(f: AudioFrame, maxPayload: nat)
    requires Valid(f) && HEADER + |f.mediaType| <= MAX_U16 && |f.audio| <= maxPayload
    ensures Encode(f).Some? && Decode(Encode(f).value, maxPayload) == Some(f)
  {
    hide Pack, Unpack, Sum, IsMediaType, FitsIn, ToAscii, FromAscii, Fields, HeaderOk, Assembled, WIDTHS, AllFit;
    HeaderAccepted(f, HEADER + |f.mediaType| + |f.audio|, maxPayload);
    FieldsFit(f);
    assert IsAscii(f.mediaType) by { MediaIsAscii(f.mediaType); }
    var header, media := Pack(WIDTHS, Fields(f)), ToAscii(f.mediaType);
    HeaderSize();
    AsciiRoundTrip(f.mediaType);
    Parts(header, media, f.audio);
    UnpackPacked(WIDTHS, Fields(f), media + f.audio);
  }

  lemma MediaIsAscii(s: string)
    requires IsMediaType(s)
    ensures IsAscii(s)
  {
  }

  lemma HeaderAccepted(f: AudioFrame, size: nat, maxPayload: nat)
    requires Valid(f) && |f.audio| <= maxPayload && size == HEADER + |f.mediaType| + |f.audio|
    ensures |Fields(f)| == |WIDTHS| == 18
    ensures HeaderOk(Fields(f), size, maxPayload) && Fields(f)[3] == HEADER + |f.mediaType|
    ensures Assembled(Fields(f), f.mediaType, f.audio) == f
  {
    hide IsMediaType, FitsIn;
  }

  /** Of the eighteen fields of a valid frame only the header length can be too large for its width, and it
      is exactly for a media type that leaves no room beside the fixed header. */
  lemma EncodeFailsExactly(f: AudioFrame)
    requires Valid(f)
    ensures Encode(f).None? <==> |f.mediaType| > 65535 - 124
  {
    hide Pack, ToAscii, FitsIn, IsMediaType, Fields, WIDTHS;
    if HEADER + |f.mediaType| <= MAX_U16 {
      FieldsFit(f);
    } else {
      Fits2(HEADER + |f.mediaType|);
      HeaderField(f);
      assert !FitsIn(Fields(f)[3], WIDTHS[3]);
    }
  }

  lemma HeaderField(f: AudioFrame)
    ensures |Fields(f)| == |WIDTHS| == 18 && Fields(f)[3] == HEADER + |f.mediaType| && WIDTHS[3] == 2
  {
  }

  function Letters(n: nat): string {
    seq(n, _ => 'x')
  }

  /** A frame of no audio whose media type is "audio/" and `n` letters. */
  function LongNamed(n: nat): AudioFrame {
    AudioFrame(0, 0, 0, 0, 0, 0, 0, 0, 0, 1, 1, AUDIO + Letters(n), [], None, 0)
  }

  /** There are valid frames that cannot be encoded. */
  lemma ValidButNotEncodable()
    ensures Valid(LongNamed(65_406)) && Encode(LongNamed(65_406)).None?
  {
    hide Pack, ToAscii;
    var f := LongNamed(65_406);
    LongNameIsMediaType(65_406);
    ZeroIsUuid();
    hide FitsIn, IsMediaType;
    EncodeFailsExactly(f);
  }

  lemma LongNameIsMediaType(n: nat)
    requires n <= 65_500
    ensures IsMediaType(AUDIO + Letters(n))
  {
    var s := AUDIO + Letters(n);
    forall i | 0 <= i < |s| ensures s[i] as int < 128 && !IsSpace(s[i]) {
      if i >= 6 {
        assert s[i] == 'x';
      }
    }
  }

  lemma ZeroIsUuid()
    ensures IsUuid(0)
  {
    ZeroFits(16);
  }

  lemma {:induction false} ZeroFits(width: nat)
    ensures FitsIn(0, width)
  {
    if width > 0 {
      ZeroFits(width - 1);
    }
  }

  /** The fields of an assembled frame are the header it was assembled from. */
  lemma FieldsOfAssembled(v: seq<nat>, size: nat, maxPayload: int, mediaType: string, audio: seq<byte>)
    requires |v| == |WIDTHS| && HeaderOk(v, size, maxPayload) && |mediaType| == v[15] && |audio| == v[17]
    requires FitsIn(v[16], 4)
    ensures Fields(Assembled(v, mediaType, audio)) == v
  {
    Fits4(v[16]);
  }

  /** Every accepted packet is the encoding of the frame it decodes to. */
  lemma EncodeDecoded(packet: seq<byte>, maxPayload: int)
    requires Decode(packet, maxPayload).Some?
    ensures Valid(Decode(packet, maxPayload).value)
    ensures Encode(Decode(packet, maxPayload).value) == Some(packet)
  {
    hide Pack, Unpack, Sum, IsMediaType, FitsIn, ToAscii, FromAscii, AllFit, Fields, WIDTHS, HeaderOk;
    HeaderSize();
    PackUnpacked(WIDTHS, packet);
    var v := Unpack(WIDTHS, packet);
    assert |WIDTHS| == 18 by { WidthCount(); }
    HeaderFits(v, |packet|, maxPayload);
    var f := Decode(packet, maxPayload).value;
    AsciiBack(packet[HEADER..v[3]]);
    AsciiLength(packet[HEADER..v[3]]);
    FieldsOfAssembled(v, |packet|, maxPayload, f.mediaType, f.audio);
    assert AllFit(WIDTHS, Fields(f));
    WholePacket(packet, HEADER, v[3]);
  }

  lemma DecodedWithin(packet: seq<byte>, maxPayload: int)
    requires Decode(packet, maxPayload).Some?
    ensures 0 <= maxPayload && |Decode(packet, maxPayload).value.audio| <= maxPayload
  {
    hide Unpack, Sum, IsMediaType, FitsIn, FromAscii, WIDTHS, Valid, HeaderOk;
    WidthCount();
    PayloadWithin(Unpack(WIDTHS, packet), |packet|, maxPayload);
  }

  /** What a decoded frame is known to be. */
  lemma DecodedIsSound(packet: seq<byte>, maxPayload: int)
    requires Decode(packet, maxPayload).Some?
    ensures var f := Decode(packet, maxPayload).value;
      && f.sampleRate > 0 && f.channels > 0 && |f.audio| <= 16 * 1024 * 1024
      && "audio/" <= f.mediaType && (forall i | 0 <= i < |f.mediaType| :: f.mediaType[i] as int < 128 && !IsSpace(f.mediaType[i]))
  {
    hide Unpack, Sum, FitsIn, FromAscii, WIDTHS, HeaderOk, Assembled, IsSpace;
  }

  lemma PayloadWithin(v: seq<nat>, size: nat, maxPayload: int)
    requires |v| == |WIDTHS| && HeaderOk(v, size, maxPayload)
    ensures |v| == 18 && v[3] <= size && size - v[3] <= maxPayload
  {
  }

  /** A packet decodes to a frame exactly when it is the encoding of that frame and the payload is within the
      limit. */
  lemma DecodesExactly(packet: seq<byte>, maxPayload: int, f: AudioFrame)
    ensures Decode(packet, maxPayload) == Some(f) <==>
      Valid(f) && Encode(f) == Some(packet) && |f.audio| <= maxPayload
  {
    hide Valid, Encode, Decode;
    if Decode(packet, maxPayload) == Some(f) {
      EncodeDecoded(packet, maxPayload);
      DecodedWithin(packet, maxPayload);
    }
    if Valid(f) && Encode(f) == Some(packet) && |f.audio| <= maxPayload {
      EncodeFailsExactly(f);
      DecodeEncoded(f, maxPayload);
    }
  }

  lemma WidthCount()
    ensures |WIDTHS| == 18
  {
  }

  lemma HeaderFits(v: seq<nat>, size: nat, maxPayload: int)
    requires AllFit(WIDTHS, v) && HeaderOk(v, size, maxPayload)
    ensures |v| == |WIDTHS| == 18
    ensures v[3] <= MAX_U16 && FitsIn(v[16], 4) && v[3] == HEADER + v[15] && size == v[3] + v[17]
  {
    hide FitsIn;
    assert WIDTHS[3] == 2 && WIDTHS[16] == 4;
    assert FitsIn(v[3], WIDTHS[3]) && FitsIn(v[16], WIDTHS[16]);
    Fits2(v[3]);
  }

  lemma AsciiLength(bs: seq<byte>)
    requires FromAscii(bs).Some?
    ensures |FromAscii(bs).value| == |bs|
  {
  }

  lemma WholePacket(packet: seq<byte>, i: nat, j: nat)
    requires i <= j <= |packet|
    ensures packet[..i] + packet[i..j] + packet[j..] == packet
  {
  }

  // ---- The layout ----

  lemma Offsets()
    ensures |WIDTHS| == 18
    ensures Sum(WIDTHS[..0]) == 0 && Sum(WIDTHS[..1]) == 4 && Sum(WIDTHS[..2]) == 5 && Sum(WIDTHS[..3]) == 6
    ensures Sum(WIDTHS[..4]) == 8 && Sum(WIDTHS[..5]) == 24 && Sum(WIDTHS[..6]) == 40 && Sum(WIDTHS[..7]) == 56
    ensures Sum(WIDTHS[..8]) == 72 && Sum(WIDTHS[..9]) == 88
  {
    hide Sum, WIDTHS;
    WidthValues();
    var w := WIDTHS;
    assert w[..0] == [];
    SumOfNothing();
    SumSnoc(w, 0);
    SumSnoc(w, 1);
    SumSnoc(w, 2);
    SumSnoc(w, 3);
    SumSnoc(w, 4);
    SumSnoc(w, 5);
    SumSnoc(w, 6);
    SumSnoc(w, 7);
    SumSnoc(w, 8);
  }

  lemma LaterOffsets()
    ensures Sum(WIDTHS[..9]) == 88 && Sum(WIDTHS[..10]) == 92 && Sum(WIDTHS[..11]) == 100 && Sum(WIDTHS[..12]) == 104
    ensures Sum(WIDTHS[..13]) == 108 && Sum(WIDTHS[..14]) == 112 && Sum(WIDTHS[..15]) == 114 && Sum(WIDTHS[..16]) == 116
    ensures Sum(WIDTHS[..17]) == 120
  {
    hide Sum, WIDTHS;
    Offsets();
    WidthValues();
    var w := WIDTHS;
    SumSnoc(w, 9);
    SumSnoc(w, 10);
    SumSnoc(w, 11);
    SumSnoc(w, 12);
    SumSnoc(w, 13);
    SumSnoc(w, 14);
    SumSnoc(w, 15);
    SumSnoc(w, 16);
  }

  lemma FieldAt(f: AudioFrame, packet: seq<byte>, i: nat)
    requires Valid(f) && Encode(f) == Some(packet) && i < |WIDTHS| == |Fields(f)|
    ensures NumberAt(packet, Sum(WIDTHS[..i]), WIDTHS[i]) == Fields(f)[i]
  {
    hide Pack, Sum, ToAscii, WIDTHS, Fields, NumberAt, IsMediaType, FitsIn, AllFit;
    assert IsAscii(f.mediaType) by { MediaIsAscii(f.mediaType); }
    hide Valid;
    var header, media := Pack(WIDTHS, Fields(f)), ToAscii(f.mediaType);
    Joined(header, media, f.audio);
    PackedAt(WIDTHS, Fields(f), media + f.audio, i);
  }

  lemma Joined(a: seq<byte>, b: seq<byte>, c: seq<byte>)
    ensures a + b + c == a + (b + c)
  {
  }

  lemma FirstFields(f: AudioFrame)
    ensures |Fields(f)| == 18
    ensures Fields(f)[0] == 0x45_56_41_46 && Fields(f)[1] == 1 && Fields(f)[2] == f.flags && Fields(f)[3] == 124 + |f.mediaType|
    ensures Fields(f)[4] == f.sessionId && Fields(f)[5] == f.eventId && Fields(f)[6] == f.correlationId
    ensures Fields(f)[7] == f.turnId && Fields(f)[8] == f.segmentId
  {
  }

  lemma LastFields(f: AudioFrame)
    ensures |Fields(f)| == 18
    ensures Fields(f)[9] == f.generation && Fields(f)[10] == f.eventSequence && Fields(f)[11] == f.segmentSequence
    ensures Fields(f)[12] == f.chunkIndex && Fields(f)[13] == f.sampleRate && Fields(f)[14] == f.channels
    ensures Fields(f)[15] == |f.mediaType| && Fields(f)[17] == |f.audio|
    ensures Fields(f)[16] == if f.duration.Some? then f.duration.value else 0xFFFF_FFFF
  {
  }

  /** The fixed header, byte by byte, up to the identities: magic number, version, flags, header length and
      the five UUIDs. */
  lemma LayoutOfIdentity(f: AudioFrame, packet: seq<byte>)
    requires Valid(f) && Encode(f) == Some(packet)
    ensures NumberAt(packet, 0, 4) == 0x45_56_41_46 && NumberAt(packet, 4, 1) == 1 && NumberAt(packet, 5, 1) == f.flags
    ensures NumberAt(packet, 6, 2) == 124 + |f.mediaType|
    ensures NumberAt(packet, 8, 16) == f.sessionId && NumberAt(packet, 24, 16) == f.eventId
    ensures NumberAt(packet, 40, 16) == f.correlationId && NumberAt(packet, 56, 16) == f.turnId
    ensures NumberAt(packet, 72, 16) == f.segmentId
  {
    hide Valid, Encode, Fields, WIDTHS, Sum, NumberAt;
    FirstFields(f);
    Offsets();
    WidthValues();
    FieldAt(f, packet, 0);
    FieldAt(f, packet, 1);
    FieldAt(f, packet, 2);
    FieldAt(f, packet, 3);
    FieldAt(f, packet, 4);
    FieldAt(f, packet, 5);
    FieldAt(f, packet, 6);
    FieldAt(f, packet, 7);
    FieldAt(f, packet, 8);
  }

  /** The rest of the header, the media type and the audio. */
  lemma LayoutOfAudio(f: AudioFrame, packet: seq<byte>)
    requires Valid(f) && Encode(f) == Some(packet)
    ensures NumberAt(packet, 88, 4) == f.generation && NumberAt(packet, 92, 8) == f.eventSequence
    ensures NumberAt(packet, 100, 4) == f.segmentSequence && NumberAt(packet, 104, 4) == f.chunkIndex
    ensures NumberAt(packet, 108, 4) == f.sampleRate && NumberAt(packet, 112, 2) == f.channels
    ensures NumberAt(packet, 114, 2) == |f.mediaType| && NumberAt(packet, 120, 4) == |f.audio|
    ensures NumberAt(packet, 116, 4) == if f.duration.Some? then f.duration.value else 0xFFFF_FFFF
    ensures |packet| == 124 + |f.mediaType| + |f.audio| && packet[124 + |f.mediaType|..] == f.audio
    ensures forall i | 0 <= i < |f.mediaType| :: packet[124 + i] as int == f.mediaType[i] as int
  {
    PartsOf(f, packet);
    hide Valid, Encode, Fields, WIDTHS, Sum, NumberAt;
    LastFields(f);
    LaterOffsets();
    WidthValues();
    FieldAt(f, packet, 9);
    FieldAt(f, packet, 10);
    FieldAt(f, packet, 11);
    FieldAt(f, packet, 12);
    FieldAt(f, packet, 13);
    FieldAt(f, packet, 14);
    FieldAt(f, packet, 15);
    FieldAt(f, packet, 16);
    FieldAt(f, packet, 17);
  }

  lemma AsciiAt(s: string)
    requires IsAscii(s)
    ensures forall i | 0 <= i < |s| :: ToAscii(s)[i] as int == s[i] as int
  {
  }

  lemma PartsOf(f: AudioFrame, packet: seq<byte>)
    requires Valid(f) && Encode(f) == Some(packet)
    ensures |packet| == 124 + |f.mediaType| + |f.audio| && packet[124 + |f.mediaType|..] == f.audio
    ensures forall i | 0 <= i < |f.mediaType| :: packet[124 + i] as int == f.mediaType[i] as int
  {
    hide Pack, Sum, WIDTHS, Fields, FitsIn, IsMediaType, ToAscii, AllFit;
    HeaderSize();
    HeaderField(f);
    assert IsAscii(f.mediaType) by { MediaIsAscii(f.mediaType); }
    hide Valid;
    var media := ToAscii(f.mediaType);
    AsciiAt(f.mediaType);
    MiddleOf(Pack(WIDTHS, Fields(f)), media, f.audio);
  }

  lemma MiddleOf(a: seq<byte>, b: seq<byte>, c: seq<byte>)
    ensures var all := a + b + c;
      |all| == |a| + |b| + |c| && all[|a| + |b|..] == c && forall i | 0 <= i < |b| :: all[|a| + i] == b[i]
  {
  }
}
