/** The packed little-endian layouts of the display protocol: words of 32 bits, headers, events and buffer records. */
module Wire {
  import opened SocketUtils

  type u32 = w: int | 0 <= w < 0x1_0000_0000
  type u64 = w: int | 0 <= w < 0x1_0000_0000_0000_0000

  const DATA_MSG_INPUT_EVENT: u32 := 102
  const DATA_MSG_OUTPUT_EVENT: u32 := 103
  const DATA_MSG_INPUT_EXTEND_FDS: u32 := 104
  const DATA_MSG_BUFS_READY: u32 := 200

  const MAX_BUFS := 8

  const INPUT_TYPE_CLIPBOARD: u32 := 8
  const INPUT_TYPE_TEXT_INPUT: u32 := 9
  const INPUT_TYPE_RESOURCE: u32 := 11

  const OUTPUT_TYPE_CLIPBOARD: u32 := 1
  const OUTPUT_TYPE_RESOURCES_REQUEST: u32 := 2
  const OUTPUT_TYPE_SET_CONSUMER_VAR: u32 := 3
  const OUTPUT_TYPE_SCHEDULING: u32 := 4

  const HEADER_SIZE := 8
  const EVENT_SIZE := 20
  const BUF_INFO_SIZE := 28

  // ---------- words ----------

  function WordBytes(w: u32): (bs: seq<byte>)
    ensures |bs| == 4
  {
    [w % 0x100, w / 0x100 % 0x100, w / 0x100 / 0x100 % 0x100, w / 0x100 / 0x100 / 0x100]
  }

  function BytesWord(bs: seq<byte>): u32
    requires |bs| == 4
  {
    var a: int, b: int, c: int, d: int := bs[0], bs[1], bs[2], bs[3];
    a + 0x100 * (b + 0x100 * (c + 0x100 * d))
  }

  lemma LowByte(low: int, high: int)
    requires 0 <= low < 0x100
    ensures (low + 0x100 * high) % 0x100 == low && (low + 0x100 * high) / 0x100 == high
  {
  }

  lemma WordThere(w: u32)
    ensures BytesWord(WordBytes(w)) == w
  {
  }

  lemma WordBack(bs: seq<byte>)
    requires |bs| == 4
    ensures WordBytes(BytesWord(bs)) == bs
  {
    var a: int, b: int, c: int, d: int := bs[0], bs[1], bs[2], bs[3];
    LowByte(a, b + 0x100 * (c + 0x100 * d));
    LowByte(b, c + 0x100 * d);
    LowByte(c, d);
  }

  function Encode(ws: seq<u32>): (bs: seq<byte>)
    ensures |bs| == 4 * |ws|
  {
    if ws == [] then [] else WordBytes(ws[0]) + Encode(ws[1..])
  }

  function Decode(bs: seq<byte>): (ws: seq<u32>)
    requires |bs| % 4 == 0
    ensures 4 * |ws| == |bs|
  {
    if bs == [] then [] else [BytesWord(bs[..4])] + Decode(bs[4..])
  }

  lemma {:induction false} DecodeEncode(ws: seq<u32>)
    ensures Decode(Encode(ws)) == ws
  {
    if ws != [] {
      var bs := Encode(ws);
      assert bs[..4] == WordBytes(ws[0]) && bs[4..] == Encode(ws[1..]);
      WordThere(ws[0]);
      DecodeEncode(ws[1..]);
    }
  }

  lemma {:induction false} EncodeDecode(bs: seq<byte>)
    requires |bs| % 4 == 0
    ensures Encode(Decode(bs)) == bs
  {
    if bs != [] {
      WordBack(bs[..4]);
      EncodeDecode(bs[4..]);
      assert bs == bs[..4] + bs[4..];
    }
  }

  // ---------- records ----------

  /** struct data_msg: the header of every message on the data channel. */
  datatype Header = Header(kind: u32, size: u32)

  function HeaderWords(h: Header): seq<u32> { [h.kind, h.size] }

  /** struct InputEvent and struct OutputEvent: a type and four words whose meaning the type decides. */
  datatype Event = Event(kind: u32, w0: u32, w1: u32, w2: u32, w3: u32)

  function EventWords(e: Event): seq<u32> { [e.kind, e.w0, e.w1, e.w2, e.w3] }

  function WordsEvent(ws: seq<u32>): Event
    requires |ws| == 5
  {
    Event(ws[0], ws[1], ws[2], ws[3], ws[4])
  }

  /** struct buf_info. */
  datatype BufInfo = BufInfo(stride: u32, width: u32, height: u32, format: u32, modifier: u64, offset: u32)

  function InfoWords(b: BufInfo): (ws: seq<u32>)
    ensures |ws| == 7
  {
    [b.stride, b.width, b.height, b.format, b.modifier % 0x1_0000_0000, b.modifier / 0x1_0000_0000, b.offset]
  }

  function WordsInfo(ws: seq<u32>): BufInfo
    requires |ws| == 7
  {
    var lo: int, hi: int := ws[4], ws[5];
    BufInfo(ws[0], ws[1], ws[2], ws[3], lo + 0x1_0000_0000 * hi, ws[6])
  }

  function InfosWords(infos: seq<BufInfo>): (ws: seq<u32>)
    ensures |ws| == 7 * |infos|
  {
    if infos == [] then [] else InfoWords(infos[0]) + InfosWords(infos[1..])
  }

  function WordsInfos(ws: seq<u32>): (infos: seq<BufInfo>)
    requires |ws| % 7 == 0
    ensures 7 * |infos| == |ws|
  {
    if ws == [] then [] else [WordsInfo(ws[..7])] + WordsInfos(ws[7..])
  }

  lemma InfoRoundTrip(b: BufInfo, ws: seq<u32>)
    requires |ws| == 7
    ensures WordsInfo(InfoWords(b)) == b
    ensures InfoWords(WordsInfo(ws)) == ws
  {
  }

  lemma {:induction false} InfosRoundTrip(infos: seq<BufInfo>)
    ensures WordsInfos(InfosWords(infos)) == infos
  {
    if infos != [] {
      var ws := InfosWords(infos);
      assert ws[..7] == InfoWords(infos[0]) && ws[7..] == InfosWords(infos[1..]);
      InfoRoundTrip(infos[0], ws[..7]);
      InfosRoundTrip(infos[1..]);
    }
  }

  lemma {:induction false} WordsInfosRoundTrip(ws: seq<u32>)
    requires |ws| % 7 == 0
    ensures InfosWords(WordsInfos(ws)) == ws
  {
    if ws != [] {
      InfoRoundTrip(BufInfo(0, 0, 0, 0, 0, 0), ws[..7]);
      WordsInfosRoundTrip(ws[7..]);
      assert ws == ws[..7] + ws[7..];
    }
  }

  // ---------- typed encodings ----------

  function EncodeHeader(h: Header): (bs: seq<byte>)
    ensures |bs| == HEADER_SIZE
  {
    Encode(HeaderWords(h))
  }

  function DecodeHeader(bs: seq<byte>): Header
    requires |bs| == HEADER_SIZE
  {
    var ws := Decode(bs); Header(ws[0], ws[1])
  }

  function EncodeEvent(e: Event): (bs: seq<byte>)
    ensures |bs| == EVENT_SIZE
  {
    Encode(EventWords(e))
  }

  function DecodeEvent(bs: seq<byte>): Event
    requires |bs| == EVENT_SIZE
  {
    WordsEvent(Decode(bs))
  }

  function EncodeInfos(infos: seq<BufInfo>): (bs: seq<byte>)
    ensures |bs| == BUF_INFO_SIZE * |infos|
  {
    Encode(InfosWords(infos))
  }

  function DecodeInfos(bs: seq<byte>): (infos: seq<BufInfo>)
    requires |bs| % BUF_INFO_SIZE == 0
    ensures BUF_INFO_SIZE * |infos| == |bs|
  {
    WordsInfos(Decode(bs))
  }

  lemma HeaderRoundTrip(h: Header, bs: seq<byte>)
    requires |bs| == HEADER_SIZE
    ensures DecodeHeader(EncodeHeader(h)) == h
    ensures EncodeHeader(DecodeHeader(bs)) == bs
  {
    DecodeEncode(HeaderWords(h));
    EncodeDecode(bs);
    assert HeaderWords(DecodeHeader(bs)) == Decode(bs);
  }

  lemma EventRoundTrip(e: Event, bs: seq<byte>)
    requires |bs| == EVENT_SIZE
    ensures DecodeEvent(EncodeEvent(e)) == e
    ensures EncodeEvent(DecodeEvent(bs)) == bs
  {
    DecodeEncode(EventWords(e));
    EncodeDecode(bs);
    assert EventWords(DecodeEvent(bs)) == Decode(bs);
  }

  lemma BufInfosThere(infos: seq<BufInfo>)
    ensures DecodeInfos(EncodeInfos(infos)) == infos
  {
    InfosRoundTrip(infos);
    DecodeEncode(InfosWords(infos));
  }

  lemma BufInfosBack(bs: seq<byte>)
    requires |bs| % BUF_INFO_SIZE == 0
    ensures EncodeInfos(DecodeInfos(bs)) == bs
  {
    WordsInfosRoundTrip(Decode(bs));
    EncodeDecode(bs);
  }

  lemma BufInfosRoundTrip(infos: seq<BufInfo>, bs: seq<byte>)
    requires |bs| % BUF_INFO_SIZE == 0
    ensures DecodeInfos(EncodeInfos(infos)) == infos
    ensures EncodeInfos(DecodeInfos(bs)) == bs
  {
    BufInfosThere(infos);
    BufInfosBack(bs);
  }

  // ---------- where each field is ----------

  /** The value of these bytes, the lowest first. */
  function Little(bs: seq<byte>): nat {
    if bs == [] then 0 else bs[0] as int + 0x100 * Little(bs[1..])
  }

  /** The 32-bit word at this offset. */
  function WordAt(bs: seq<byte>, offset: nat): nat
    requires offset + 4 <= |bs|
  {
    Little(bs[offset..offset + 4])
  }

  lemma LittleWord(w: u32)
    ensures Little(WordBytes(w)) == w
  {
    var bs := WordBytes(w);
    assert bs[1..][1..] == bs[2..] && bs[2..][1..] == bs[3..] && bs[3..][1..] == [];
    assert Little(bs[3..]) == bs[3] as int;
    assert Little(bs[2..]) == bs[2] as int + 0x100 * bs[3] as int;
    assert Little(bs[1..]) == bs[1] as int + 0x100 * Little(bs[2..]);
    WordThere(w);
  }

  lemma {:induction false} EncodedAt(ws: seq<u32>, i: nat)
    requires i < |ws|
    ensures WordAt(Encode(ws), 4 * i) == ws[i]
  {
    var bs := Encode(ws);
    if i == 0 {
      assert bs[0..4] == WordBytes(ws[0]);
      LittleWord(ws[0]);
    } else {
      EncodedAt(ws[1..], i - 1);
      assert bs[4..] == Encode(ws[1..]);
      assert bs[4 * i..4 * i + 4] == bs[4..][4 * (i - 1)..4 * (i - 1) + 4];
    }
  }

  /** struct data_msg: type at 0, size at 4. */
  lemma HeaderLayout(h: Header)
    ensures var bs := EncodeHeader(h); WordAt(bs, 0) == h.kind && WordAt(bs, 4) == h.size
  {
    EncodedAt(HeaderWords(h), 0);
    EncodedAt(HeaderWords(h), 1);
  }

  /** The type of an event at 0, its words at 4, 8, 12 and 16. */
  lemma EventLayout(e: Event)
    ensures var bs := EncodeEvent(e);
            && WordAt(bs, 0) == e.kind
            && WordAt(bs, 4) == e.w0 && WordAt(bs, 8) == e.w1 && WordAt(bs, 12) == e.w2 && WordAt(bs, 16) == e.w3
  {
    var ws := EventWords(e);
    EncodedAt(ws, 0);
    EncodedAt(ws, 1);
    EncodedAt(ws, 2);
    EncodedAt(ws, 3);
    EncodedAt(ws, 4);
  }

  lemma {:induction false} InfoWordsAt(infos: seq<BufInfo>, i: nat, j: nat)
    requires i < |infos| && j < 7
    ensures InfosWords(infos)[7 * i + j] == InfoWords(infos[i])[j]
  {
    if i > 0 {
      InfoWordsAt(infos[1..], i - 1, j);
      assert InfosWords(infos)[7 * i + j] == InfosWords(infos[1..])[7 * (i - 1) + j];
    }
  }

  lemma InfoFieldAt(infos: seq<BufInfo>, i: nat, j: nat)
    requires i < |infos| && j < 7
    ensures WordAt(EncodeInfos(infos), BUF_INFO_SIZE * i + 4 * j) == InfoWords(infos[i])[j]
  {
    InfoWordsAt(infos, i, j);
    EncodedAt(InfosWords(infos), 7 * i + j);
    assert 4 * (7 * i + j) == BUF_INFO_SIZE * i + 4 * j;
  }

  /**
   struct buf_info number i of a table: stride, width, height and format at 0, 4, 8 and 12 of its 28 bytes, the 64-bit
   modifier at 16 with its lower half first, the offset at 24.
   */
  lemma BufInfoLayout(infos: seq<BufInfo>, i: nat)
    requires i < |infos|
    ensures var bs, at := EncodeInfos(infos), 28 * i;
            && WordAt(bs, at) == infos[i].stride && WordAt(bs, at + 4) == infos[i].width
            && WordAt(bs, at + 8) == infos[i].height && WordAt(bs, at + 12) == infos[i].format
            && WordAt(bs, at + 16) + 0x1_0000_0000 * WordAt(bs, at + 20) == infos[i].modifier
            && WordAt(bs, at + 24) == infos[i].offset
  {
    InfoFieldAt(infos, i, 0);
    InfoFieldAt(infos, i, 1);
    InfoFieldAt(infos, i, 2);
    InfoFieldAt(infos, i, 3);
    InfoFieldAt(infos, i, 4);
    InfoFieldAt(infos, i, 5);
    InfoFieldAt(infos, i, 6);
  }
}
