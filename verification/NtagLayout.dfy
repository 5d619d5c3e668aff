/** The 144-byte tag layout, its 36 pages, and the counter bytes of the tap message. */
module NtagLayout {
  import opened Common
  import opened Crc16

  const LAYOUT_SIZE := 144
  const PAGES := 36

  /** A text encoding of bytes (base64 for the pages, hex for the UID), taken as lossless. */
  datatype Codec = Codec(encode: seq<Byte> -> string, decode: string -> seq<Byte>) {
    ghost predicate Lossless() {
      forall bytes {:trigger encode(bytes)} :: decode(encode(bytes)) == bytes
    }
  }

  /** Byte i of the buffer after `source.copy(target, at)`: what does not fit is dropped. */
  function Copied(target: seq<Byte>, source: seq<Byte>, at: nat): (r: seq<Byte>)
    ensures |r| == |target|
  {
    seq(|target|, i requires 0 <= i < |target| => if at <= i < at + |source| then source[i - at] else target[i])
  }

  function Zeros(n: nat): (r: seq<Byte>)
    ensures |r| == n && forall i :: 0 <= i < n ==> r[i] == 0
  {
    seq(n, _ => 0 as Byte)
  }

  /** The successive writes of `buildNtagLayout`. */
  function Layout(uid: seq<Byte>, dat: seq<Byte>, hash: seq<Byte>, metaHash: seq<Byte>): (r: seq<Byte>)
    ensures |r| == LAYOUT_SIZE
  {
    var crc := Crc(metaHash);
    var version := Zeros(LAYOUT_SIZE)[0 := 1][1 := 0];
    var fields := Copied(Copied(Copied(version, uid, 2), dat, 10), hash, 26);
    Copied(fields, metaHash, 62)[94 := HighByte(crc)][95 := LowByte(crc)]
  }

  method CopyInto(source: seq<Byte>, target: array<Byte>, at: nat)
    modifies target
    ensures target[..] == Copied(old(target[..]), source, at)
  {
    var n := if at + |source| <= target.Length then |source| else if at <= target.Length then target.Length - at else 0;
    for i := 0 to n
      invariant forall k :: 0 <= k < target.Length ==> target[k] == if at <= k < at + i then source[k - at]
                else old(target[k])
    {
      target[at + i] := source[i];
    }
  }

  lemma RegisterBytes(crc: bv32)
    requires crc <= 0xFFFF
    ensures (crc >> 8) <= 0xFF && ((crc >> 8) as Byte) == HighByte(crc as bv16)
    ensures (crc & 0xFF) <= 0xFF && ((crc & 0xFF) as Byte) == LowByte(crc as bv16)
  {
  }

  method BuildNtagLayout(uid: seq<Byte>, dat: seq<Byte>, hash: seq<Byte>, metaHash: seq<Byte>)
    returns (layout: array<Byte>)
    ensures fresh(layout) && layout[..] == Layout(uid, dat, hash, metaHash)
  {
    layout := new Byte[144](_ => 0);
    layout[0] := 1;
    layout[1] := 0;
    assert layout[..] == Zeros(LAYOUT_SIZE)[0 := 1][1 := 0];
    CopyInto(uid, layout, 2);
    CopyInto(dat, layout, 10);
    CopyInto(hash, layout, 26);
    CopyInto(metaHash, layout, 62);
    var crc := ComputeCrc16(metaHash);
    RegisterBytes(crc);
    layout[94] := (crc >> 8) as Byte;
    layout[95] := (crc & 0xFF) as Byte;
  }

  /** For a 7-byte UID, a 16-byte DAT and a 32-byte hash every field reads back from its offset, everything reserved is
      zero, and the metadata block (the hash and the CRC right behind it) checks to zero. */
  lemma FieldsReadBack(uid: seq<Byte>, dat: seq<Byte>, hash: seq<Byte>, metaHash: seq<Byte>)
    requires |uid| == 7 && |dat| == 16 && |hash| == 32 && |metaHash| == 32
    ensures var layout := Layout(uid, dat, hash, metaHash);
            && layout[..2] == [1, 0]
            && layout[2..9] == uid
            && layout[9] == 0
            && layout[10..26] == dat
            && layout[26..58] == hash
            && layout[58..62] == Zeros(4)
            && layout[62..94] == metaHash
            && layout[62..96] == Sealed(metaHash)
            && Crc(layout[62..96]) == 0
            && layout[96..] == Zeros(48)
  {
    SealedBlockChecks(metaHash);
    var version := Zeros(LAYOUT_SIZE)[0 := 1][1 := 0];
    var withUid := Copied(version, uid, 2);
    var withDat := Copied(withUid, dat, 10);
    var fields := Copied(withDat, hash, 26);
    assert withUid[9] == 0 && withDat[9] == 0 && fields[9] == 0;
    assert Layout(uid, dat, hash, metaHash)[62..96] == Sealed(metaHash);
  }

  /** A tag whose metadata block differs from the one written in one byte or two adjacent bytes fails the CRC. */
  lemma DamagedMetadataIsSeen(uid: seq<Byte>, dat: seq<Byte>, hash: seq<Byte>, metaHash: seq<Byte>, read: seq<Byte>,
                              k: nat)
    requires |uid| == 7 && |dat| == 16 && |hash| == 32 && |metaHash| == 32
    requires |read| == LAYOUT_SIZE && k < 34
    requires var block := Layout(uid, dat, hash, metaHash)[62..96];
             forall i :: 0 <= i < 34 && i != k && i != k + 1 ==> read[62..96][i] == block[i]
    ensures Crc(read[62..96]) == 0 <==> read[62..96] == Layout(uid, dat, hash, metaHash)[62..96]
  {
    FieldsReadBack(uid, dat, hash, metaHash);
    ShortErrorsAreDetected(metaHash, read[62..96], k);
  }

  // ----- pages -----

  function Page(layout: seq<Byte>, i: nat): seq<Byte>
    requires |layout| == LAYOUT_SIZE && i < PAGES
  {
    layout[4 * i..4 * i + 4]
  }

  method LayoutToPages(layout: seq<Byte>, base64: Codec) returns (pages: seq<string>)
    requires |layout| == LAYOUT_SIZE
    ensures |pages| == PAGES
    ensures forall i :: 0 <= i < PAGES ==> pages[i] == base64.encode(Page(layout, i))
  {
    pages := [];
    for i := 0 to 36
      invariant |pages| == i
      invariant forall k :: 0 <= k < i ==> pages[k] == base64.encode(Page(layout, k))
    {
      pages := pages + [base64.encode(layout[i * 4..i * 4 + 4])];
    }
  }

  function Join(pages: seq<string>, base64: Codec): seq<Byte> {
    if pages == [] then [] else Join(pages[..|pages| - 1], base64) + base64.decode(pages[|pages| - 1])
  }

  lemma {:induction false} PrefixOfPages(layout: seq<Byte>, pages: seq<string>, base64: Codec)
    requires base64.Lossless() && |layout| == LAYOUT_SIZE && |pages| <= PAGES
    requires forall i :: 0 <= i < |pages| ==> pages[i] == base64.encode(Page(layout, i))
    ensures Join(pages, base64) == layout[..4 * |pages|]
  {
    if pages == [] {
    } else {
      var n := |pages| - 1;
      PrefixOfPages(layout, pages[..n], base64);
      assert base64.decode(pages[n]) == layout[4 * n..4 * n + 4];
      assert layout[..4 * n] + layout[4 * n..4 * n + 4] == layout[..4 * |pages|];
    }
  }

  /** Joining the 36 decoded pages gives the layout back. */
  lemma PagesJoinToLayout(layout: seq<Byte>, pages: seq<string>, base64: Codec)
    requires base64.Lossless() && |layout| == LAYOUT_SIZE && |pages| == PAGES
    requires forall i :: 0 <= i < PAGES ==> pages[i] == base64.encode(Page(layout, i))
    ensures Join(pages, base64) == layout
  {
    PrefixOfPages(layout, pages, base64);
    assert layout[..LAYOUT_SIZE] == layout;
  }

  // ----- the tap message -----

  datatype Picc = Picc(uid: string, ctr: bv32)

  /** `decryptPiccData` after decryption: seven UID bytes, then the counter in bytes 7 to 9, low byte first. */
  function ReadPicc(plaintext: seq<Byte>, hex: Codec): Picc
    requires |plaintext| == 16
  {
    Picc(hex.encode(plaintext[..7]),
         (plaintext[7] as bv32) | ((plaintext[8] as bv32) << 8) | ((plaintext[9] as bv32) << 16))
  }

  /** The MAC input of `computeSdmCmac`; `writeUIntLE` refuses a counter that does not fit three bytes. */
  function MacInput(p: Picc, hex: Codec): Option<seq<Byte>> {
    if p.ctr > 0xFF_FFFF then None
    else Some(hex.decode(p.uid) + [(p.ctr & 0xFF) as Byte, ((p.ctr >> 8) & 0xFF) as Byte,
      ((p.ctr >> 16) & 0xFF) as Byte])
  }

  lemma CounterBytes(a: Byte, b: Byte, c: Byte)
    ensures var ctr := (a as bv32) | ((b as bv32) << 8) | ((c as bv32) << 16);
            ctr <= 0xFF_FFFF && (ctr & 0xFF) as Byte == a && ((ctr >> 8) & 0xFF) as Byte == b
              && ((ctr >> 16) & 0xFF) as Byte == c
  {
  }

  /** The MAC input rebuilt from the decoded uid and counter is the first ten plaintext bytes. */
  lemma MacInputIsThePlaintextHead(plaintext: seq<Byte>, hex: Codec)
    requires |plaintext| == 16 && hex.Lossless()
    ensures MacInput(ReadPicc(plaintext, hex), hex) == Some(plaintext[..10])
  {
    CounterBytes(plaintext[7], plaintext[8], plaintext[9]);
    assert plaintext[..10] == plaintext[..7] + [plaintext[7], plaintext[8], plaintext[9]];
  }

  lemma BytesAddUp(a: Byte, b: Byte, c: Byte)
    ensures (a as bv32) | ((b as bv32) << 8) | ((c as bv32) << 16)
            == (a as bv32) + 0x100 * (b as bv32) + 0x1_0000 * (c as bv32)
  {
  }

  /** The counter is read low byte first, and bytes behind it do not count. */
  lemma CounterIsLowByteFirst(plaintext: seq<Byte>, hex: Codec)
    requires |plaintext| == 16
    ensures ReadPicc(plaintext, hex).ctr
            == (plaintext[7] as bv32) + 0x100 * (plaintext[8] as bv32) + 0x1_0000 * (plaintext[9] as bv32)
    ensures ReadPicc(plaintext, hex).uid == hex.encode(plaintext[..7])
  {
    BytesAddUp(plaintext[7], plaintext[8], plaintext[9]);
  }
}
