/** The bytes of the write-ahead log: a record is a length, a type, a checksum and the data
    (pkg/wal/wal.go).  The checksum is any function of type and data. */
module Framing {
  import opened Commands

  const TWO_32 := 0x1_0000_0000

  type U32 = x: int | 0 <= x < 0x1_0000_0000

  type Checksum = Bytes -> U32

  datatype Record = Record(kind: Byte, data: Bytes)

  datatype ReadResult = Ok(records: seq<Record>) | Truncated | Corrupt

  const HEADER_SIZE := 9

  // ---------------------------------------------------------------- big-endian words

  function PutU32(x: U32): (b: Bytes)
    ensures |b| == 4
  {
    var high, low := x / 0x1_0000, x % 0x1_0000;
    [high / 0x100, high % 0x100, low / 0x100, low % 0x100]
  }

  function GetU32(b: Bytes): U32
    requires |b| == 4
  {
    (b[0] as int * 0x100 + b[1] as int) * 0x1_0000 + b[2] as int * 0x100 + b[3] as int
  }

  lemma WordRoundTrip(x: U32)
    ensures GetU32(PutU32(x)) == x
  {
  }

  // ---------------------------------------------------------------- writing and reading

  /** The length field counts type, checksum and data, and wraps at 2^32. */
  function LengthField(size: nat): U32 {
    (1 + size + 4) % TWO_32
  }

  /** The data size a reader takes from the length field, in 32-bit arithmetic. */
  function DataSize(length: U32): nat {
    (length - (1 + 4)) % TWO_32
  }

  function Header(crc: Checksum, r: Record): (b: Bytes)
    ensures |b| == HEADER_SIZE
  {
    PutU32(LengthField(|r.data|)) + [r.kind] + PutU32(crc([r.kind] + r.data))
  }

  function Frame(crc: Checksum, r: Record): Bytes {
    Header(crc, r) + r.data
  }

  function Encode(crc: Checksum, rs: seq<Record>): Bytes {
    if rs == [] then [] else Frame(crc, rs[0]) + Encode(crc, rs[1..])
  }

  function Prepend(rs: seq<Record>, rest: ReadResult): ReadResult {
    if rest.Ok? then Ok(rs + rest.records) else rest
  }

  /** One log file, read to its end. */
  function Decode(crc: Checksum, b: Bytes): ReadResult
    decreases |b|
  {
    if b == [] then Ok([])
    else if |b| < HEADER_SIZE then Truncated
    else
      var n := DataSize(GetU32(b[0..4]));
      if |b| < HEADER_SIZE + n then Truncated
      else if crc([b[4]] + b[9..9 + n]) != GetU32(b[5..9]) then Corrupt
      else Prepend([Record(b[4], b[9..9 + n])], Decode(crc, b[9 + n..]))
  }

  function DecodeFiles(crc: Checksum, files: seq<Bytes>): ReadResult {
    if files == [] then Ok([])
    else
      var first := Decode(crc, files[0]);
      if first.Ok? then Prepend(first.records, DecodeFiles(crc, files[1..])) else first
  }

  // ---------------------------------------------------------------- round trip

  predicate Fits(r: Record) {
    |r.data| < TWO_32
  }

  ghost predicate AllFit(rs: seq<Record>) {
    forall i :: 0 <= i < |rs| ==> Fits(rs[i])
  }

  /** The 32-bit wrap of the writer and that of the reader cancel out, up to the size of the field. */
  lemma SizeRoundTrip(size: nat)
    ensures DataSize(LengthField(size)) == size % TWO_32
  {
  }

  /** A reader at a record header. */
  lemma HeaderRead(crc: Checksum, r: Record, b: Bytes)
    requires |b| >= HEADER_SIZE && b[..9] == Header(crc, r)
    ensures GetU32(b[0..4]) == LengthField(|r.data|) && b[4] == r.kind && GetU32(b[5..9]) == crc([r.kind] + r.data)
  {
    var h := Header(crc, r);
    assert b[0..4] == b[..9][0..4] == h[0..4] == PutU32(LengthField(|r.data|));
    assert b[4] == b[..9][4] == h[4];
    assert b[5..9] == b[..9][5..9] == h[5..9] == PutU32(crc([r.kind] + r.data));
    WordRoundTrip(LengthField(|r.data|));
    WordRoundTrip(crc([r.kind] + r.data));
  }

  /** A reader at the header of a record that fits knows the size of its data. */
  lemma SizeRead(crc: Checksum, r: Record, b: Bytes)
    requires Fits(r) && |b| >= HEADER_SIZE && b[..9] == Header(crc, r)
    ensures DataSize(GetU32(b[0..4])) == |r.data|
  {
    hide GetU32, Header;
    HeaderRead(crc, r, b);
    SizeRoundTrip(|r.data|);
  }

  /** A whole record that fits is read back and the rest is read after it. */
  lemma FrameRead(crc: Checksum, r: Record, rest: Bytes)
    requires Fits(r)
    ensures Decode(crc, Frame(crc, r) + rest) == Prepend([r], Decode(crc, rest))
  {
    hide GetU32, Header, DataSize;
    var b := Frame(crc, r) + rest;
    assert b[..9] == Header(crc, r);
    HeaderRead(crc, r, b);
    SizeRead(crc, r, b);
    assert b[9..9 + |r.data|] == r.data && b[9 + |r.data|..] == rest;
  }

  /** A record that does not fit is never read back: the reader takes less data, if anything. */
  lemma OversizeRead(crc: Checksum, r: Record, rest: Bytes)
    requires !Fits(r)
    ensures var result := Decode(crc, Frame(crc, r) + rest);
            result.Ok? ==> result.records != [] && result.records[0] != r
  {
    var b := Frame(crc, r) + rest;
    assert b[..9] == Header(crc, r);
    HeaderRead(crc, r, b);
    SizeRoundTrip(|r.data|);
    var n := |r.data| % TWO_32;
    assert n < TWO_32 <= |r.data|;
  }

  /** What was written is read back, in order, if and only if every record's data is shorter than 2^32
      bytes. */
  lemma {:induction false} RoundTrip(crc: Checksum, rs: seq<Record>)
    ensures Decode(crc, Encode(crc, rs)) == Ok(rs) <==> AllFit(rs)
  {
    if rs != [] {
      RoundTrip(crc, rs[1..]);
      assert AllFit(rs) <==> Fits(rs[0]) && AllFit(rs[1..]) by {
        assert forall i :: 0 < i < |rs| ==> rs[i] == rs[1..][i - 1];
      }
      assert rs == [rs[0]] + rs[1..];
      if Fits(rs[0]) {
        FrameRead(crc, rs[0], Encode(crc, rs[1..]));
        var rest := Decode(crc, Encode(crc, rs[1..]));
        assert rest.Ok? && [rs[0]] + rest.records == rs ==> rest.records == rs[1..] by {
          assert rest.Ok? ==> ([rs[0]] + rest.records)[1..] == rest.records;
        }
      } else {
        OversizeRead(crc, rs[0], Encode(crc, rs[1..]));
      }
    }
  }

  // ---------------------------------------------------------------- a log cut short

  /** A frame cut short is an error, wherever it is cut. */
  lemma PartialFrame(crc: Checksum, r: Record, n: nat)
    requires Fits(r) && 0 < n < |Frame(crc, r)|
    ensures Decode(crc, Frame(crc, r)[..n]) == Truncated
  {
    hide GetU32, Header, DataSize;
    var b := Frame(crc, r)[..n];
    if n >= HEADER_SIZE {
      assert b[..9] == Header(crc, r);
      SizeRead(crc, r, b);
    }
  }

  lemma EncodeShift(crc: Checksum, rs: seq<Record>, k: nat)
    requires rs != [] && k < |rs|
    ensures Encode(crc, rs[..k + 1]) == Frame(crc, rs[0]) + Encode(crc, rs[1..][..k])
  {
    assert rs[..k + 1][1..] == rs[1..][..k];
  }

  lemma PrefixOfSum(a: Bytes, b: Bytes, n: nat)
    requires |a| <= n <= |a| + |b|
    ensures (a + b)[..n] == a + b[..n - |a|]
  {
  }

  /** `n` bytes of the encoding reach into record `k`, and read as the records before it, or as an error
      if they reach into it properly. */
  ghost predicate ReadsUpTo(crc: Checksum, rs: seq<Record>, n: nat, k: nat) {
    && n <= |Encode(crc, rs)| && k <= |rs|
    && |Encode(crc, rs[..k])| <= n && (k < |rs| ==> n < |Encode(crc, rs[..k + 1])|)
    && Decode(crc, Encode(crc, rs)[..n]) == if n == |Encode(crc, rs[..k])| then Ok(rs[..k]) else Truncated
  }

  lemma ReadsNone(crc: Checksum, rs: seq<Record>, n: nat)
    requires rs != [] && Fits(rs[0]) && n < |Frame(crc, rs[0])|
    ensures ReadsUpTo(crc, rs, n, 0)
  {
    EncodeShift(crc, rs, 0);
    assert Encode(crc, rs)[..n] == Frame(crc, rs[0])[..n];
    assert rs[..0] == [];
    if n > 0 {
      PartialFrame(crc, rs[0], n);
    } else {
      EmptyRead(crc);
    }
  }

  lemma ReadsOneMore(crc: Checksum, rs: seq<Record>, n: nat, m: nat)
    requires rs != [] && Fits(rs[0]) && |Frame(crc, rs[0])| <= n && ReadsUpTo(crc, rs[1..], n - |Frame(crc, rs[0])|, m)
    ensures ReadsUpTo(crc, rs, n, m + 1)
  {
    var f, rest := Frame(crc, rs[0]), Encode(crc, rs[1..]);
    assert Encode(crc, rs) == f + rest;
    hide Decode, Frame, Fits, Encode;
    PrefixOfSum(f, rest, n);
    FrameRead(crc, rs[0], rest[..n - |f|]);
    EncodeShift(crc, rs, m);
    if m + 1 < |rs| {
      EncodeShift(crc, rs, m + 1);
    }
    assert rs[..m + 1] == [rs[0]] + rs[1..][..m];
  }

  /** Whatever prefix of the bytes survives a crash, reading it gives the records that are whole if it
      ends between two records, and an error otherwise: never a wrong record. */
  lemma {:induction false} PrefixRead(crc: Checksum, rs: seq<Record>, n: nat) returns (k: nat)
    requires AllFit(rs) && n <= |Encode(crc, rs)|
    ensures ReadsUpTo(crc, rs, n, k)
  {
    if rs == [] {
      k := 0;
    } else if n < |Frame(crc, rs[0])| {
      k := 0;
      ReadsNone(crc, rs, n);
    } else {
      k := PrefixRead(crc, rs[1..], n - |Frame(crc, rs[0])|);
      ReadsOneMore(crc, rs, n, k);
      k := k + 1;
    }
  }

  lemma EmptyRead(crc: Checksum)
    ensures Decode(crc, []) == Ok([])
  {
  }

  // ---------------------------------------------------------------- the layout

  /** Four bytes, the highest first. */
  lemma BigEndian(x: U32)
    ensures var b := PutU32(x);
            x == b[0] as int * 0x100_0000 + b[1] as int * 0x1_0000 + b[2] as int * 0x100 + b[3] as int
  {
  }

  /** A record on disk: the number of bytes behind the length field and the checksum counted, as four
      bytes; the type; the checksum of type and data, as four bytes; the data. */
  lemma FrameLayout(crc: Checksum, r: Record)
    requires |r.data| + 5 < TWO_32
    ensures var b := Frame(crc, r);
            && |b| == 9 + |r.data|
            && b[0..4] == PutU32(|r.data| + 5) && b[4] == r.kind && b[5..9] == PutU32(crc([r.kind] + r.data)) && b[9..] == r.data
  {
    assert LengthField(|r.data|) == |r.data| + 5;
    hide PutU32, LengthField;
    var h := Header(crc, r);
    assert Frame(crc, r)[0..4] == h[0..4] == PutU32(|r.data| + 5);
    assert Frame(crc, r)[5..9] == h[5..9];
  }

  // ---------------------------------------------------------------- corruption

  /** A record on disk with some other checksum. */
  function Damaged(r: Record, stored: U32): Bytes {
    PutU32(LengthField(|r.data|)) + [r.kind] + PutU32(stored) + r.data
  }

  lemma DamagedRead(crc: Checksum, r: Record, stored: U32, rest: Bytes)
    requires Fits(r) && stored != crc([r.kind] + r.data)
    ensures Decode(crc, Damaged(r, stored) + rest) == Corrupt
  {
    hide PutU32, GetU32, LengthField, DataSize;
    var b := Damaged(r, stored) + rest;
    WordRoundTrip(LengthField(|r.data|));
    WordRoundTrip(stored);
    SizeRoundTrip(|r.data|);
    assert |r.data| % TWO_32 == |r.data|;
    assert b[0..4] == PutU32(LengthField(|r.data|)) && b[4] == r.kind && b[5..9] == PutU32(stored);
    assert b[9..9 + |r.data|] == r.data;
  }

  /** A record whose stored checksum is not that of its type and data is refused, and with it everything
      that was read before. */
  lemma {:induction false} BadChecksumIsCorrupt(crc: Checksum, rs: seq<Record>, r: Record, stored: U32, rest: Bytes)
    requires AllFit(rs) && Fits(r) && stored != crc([r.kind] + r.data)
    ensures Decode(crc, Encode(crc, rs) + (Damaged(r, stored) + rest)) == Corrupt
  {
    hide Decode, Frame, Damaged;
    var bad := Damaged(r, stored) + rest;
    if rs == [] {
      assert Encode(crc, rs) + bad == bad;
      DamagedRead(crc, r, stored, rest);
    } else {
      assert AllFit(rs[1..]);
      BadChecksumIsCorrupt(crc, rs[1..], r, stored, rest);
      assert Encode(crc, rs) + bad == Frame(crc, rs[0]) + (Encode(crc, rs[1..]) + bad);
      FrameRead(crc, rs[0], Encode(crc, rs[1..]) + bad);
    }
  }

  // ---------------------------------------------------------------- several files

  function Flatten(rss: seq<seq<Record>>): seq<Record> {
    if rss == [] then [] else rss[0] + Flatten(rss[1..])
  }

  /** Files are read in the order of their names, and each from its start to its end. */
  lemma {:induction false} FilesInOrder(crc: Checksum, files: seq<Bytes>, rss: seq<seq<Record>>)
    requires |files| == |rss| && forall i :: 0 <= i < |files| ==> Decode(crc, files[i]) == Ok(rss[i])
    ensures DecodeFiles(crc, files) == Ok(Flatten(rss))
  {
    if files != [] {
      FilesInOrder(crc, files[1..], rss[1..]);
    }
  }

  /** The first file that does not read well decides the error, and no record is returned. */
  lemma {:induction false} FirstErrorDecides(crc: Checksum, files: seq<Bytes>, k: nat)
    requires k < |files| && !Decode(crc, files[k]).Ok? && forall i :: 0 <= i < k ==> Decode(crc, files[i]).Ok?
    ensures DecodeFiles(crc, files) == Decode(crc, files[k])
  {
    if k > 0 {
      FirstErrorDecides(crc, files[1..], k - 1);
    }
  }
}
