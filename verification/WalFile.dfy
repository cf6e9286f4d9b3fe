/** The write-ahead log as an object over the contents of its files (pkg/wal/wal.go). */
module WalFile {
  import opened Commands
  import opened Framing

  datatype Outcome = Done | Closed

  lemma PrependTwice(a: seq<Record>, b: seq<Record>, rest: ReadResult)
    ensures Prepend(a, Prepend(b, rest)) == Prepend(a + b, rest)
  {
    if rest.Ok? {
      assert a + (b + rest.records) == a + b + rest.records;
    }
  }

  /** The files after one more record. */
  function Appended(crc: Checksum, files: seq<Bytes>, r: Record): (fs: seq<Bytes>)
    requires files != []
    ensures |fs| == |files|
  {
    files[|files| - 1 := files[|files| - 1] + Frame(crc, r)]
  }

  /** The files after a session that writes `rs`, one by one. */
  function Session(crc: Checksum, files: seq<Bytes>, rs: seq<Record>): (fs: seq<Bytes>)
    requires files != []
    ensures |fs| == |files|
  {
    if rs == [] then files else Appended(crc, Session(crc, files, rs[..|rs| - 1]), rs[|rs| - 1])
  }

  /** Write four bytes, the highest first. */
  method PutWord(b: array<Byte>, at: nat, x: U32)
    requires at + 4 <= b.Length
    modifies b
    ensures b[..at] == old(b[..at]) && b[at..at + 4] == PutU32(x) && b[at + 4..] == old(b[at + 4..])
  {
    var word := PutU32(x);
    b[at], b[at + 1], b[at + 2], b[at + 3] := word[0], word[1], word[2], word[3];
  }

  class WAL {
    const crc: Checksum
    /** The files in the order of their names; the last is the one appended to. */
    var files: seq<Bytes>
    var open: bool

    ghost predicate Valid()
      reads this
    {
      files != []
    }

    /** Open: append to the last file there is, or start the first one. */
    constructor (crc: Checksum, found: seq<Bytes>)
      ensures Valid() && open && this.crc == crc
      ensures files == if found == [] then [[]] else found
    {
      this.crc := crc;
      files := if found == [] then [[]] else found;
      open := true;
    }

    /** The nine bytes in front of the data, filled in field by field. */
    method MakeHeader(kind: Byte, data: Bytes) returns (header: array<Byte>)
      ensures fresh(header) && header[..] == Header(crc, Record(kind, data))
    {
      header := new Byte[HEADER_SIZE](_ => 0);
      PutWord(header, 0, LengthField(|data|));
      header[4] := kind;
      PutWord(header, 5, crc([kind] + data));
      assert header[..] == header[..4] + [header[4]] + header[5..9];
    }

    /** Append one record to the last file. */
    method Write(kind: Byte, data: Bytes) returns (outcome: Outcome)
      requires Valid()
      modifies this`files
      ensures Valid() && outcome == (if open then Done else Closed)
      ensures files == if open then Appended(crc, old(files), Record(kind, data)) else old(files)
      ensures open && DecodeFiles(crc, old(files)).Ok? ==>
                (DecodeFiles(crc, files) == Ok(DecodeFiles(crc, old(files)).records + [Record(kind, data)]) <==>
                 Fits(Record(kind, data)))
    {
      if !open {
        return Closed;
      }
      if DecodeFiles(crc, files).Ok? {
        OneReadsBack(crc, files, Record(kind, data));
      }
      var header := MakeHeader(kind, data);
      var last := |files| - 1;
      files := files[last := files[last] + header[..] + data];
      assert files[last] == old(files)[last] + Frame(crc, Record(kind, data));
      return Done;
    }

    method Close()
      modifies this`open
      ensures !open
    {
      open := false;
    }

    /** One file, record by record. */
    method ReadFile(b: Bytes) returns (result: ReadResult)
      ensures result == Decode(crc, b)
    {
      hide GetU32, DataSize;
      var records: seq<Record> := [];
      var pos := 0;
      assert b[0..] == b;
      while pos < |b|
        invariant 0 <= pos <= |b|
        invariant Decode(crc, b) == Prepend(records, Decode(crc, b[pos..]))
      {
        var rest := b[pos..];
        if |rest| < HEADER_SIZE {
          return Truncated;
        }
        var n := DataSize(GetU32(rest[0..4]));
        if |rest| < HEADER_SIZE + n {
          return Truncated;
        }
        var kind, data := rest[4], rest[9..9 + n];
        if crc([kind] + data) != GetU32(rest[5..9]) {
          return Corrupt;
        }
        PrependTwice(records, [Record(kind, data)], Decode(crc, rest[9 + n..]));
        assert rest[9 + n..] == b[pos + 9 + n..];
        records := records + [Record(kind, data)];
        pos := pos + HEADER_SIZE + n;
      }
      return Ok(records);
    }

    /** Every record of every file, or the first error. */
    method ReadAll() returns (result: ReadResult)
      ensures result == DecodeFiles(crc, files)
    {
      var records: seq<Record> := [];
      var i := 0;
      assert files[0..] == files;
      while i < |files|
        invariant 0 <= i <= |files|
        invariant DecodeFiles(crc, files) == Prepend(records, DecodeFiles(crc, files[i..]))
      {
        var part := ReadFile(files[i]);
        assert files[i..][1..] == files[i + 1..];
        if !part.Ok? {
          return part;
        }
        PrependTwice(records, part.records, DecodeFiles(crc, files[i + 1..]));
        records := records + part.records;
        i := i + 1;
      }
      return Ok(records);
    }
  }

  // ---------------------------------------------------------------- writing, then reading

  /** Records are appended at the end. */
  lemma {:induction false} EncodeAppends(crc: Checksum, rs: seq<Record>, r: Record)
    ensures Encode(crc, rs + [r]) == Encode(crc, rs) + Frame(crc, r)
  {
    if rs == [] {
      assert rs + [r] == [r] && [r][1..] == [];
    } else {
      assert (rs + [r])[1..] == rs[1..] + [r];
      EncodeAppends(crc, rs[1..], r);
    }
  }

  /** A file that reads well is read as before when bytes are added behind it. */
  lemma {:induction false} ReadOn(crc: Checksum, b: Bytes, more: Bytes)
    requires Decode(crc, b).Ok?
    ensures Decode(crc, b + more) == Prepend(Decode(crc, b).records, Decode(crc, more))
    decreases |b|
  {
    hide GetU32, DataSize;
    if b == [] {
      assert b + more == more;
    } else {
      var c := b + more;
      var n := DataSize(GetU32(b[0..4]));
      assert c[0..4] == b[0..4] && c[5..9] == b[5..9] && c[9..9 + n] == b[9..9 + n];
      assert c[9 + n..] == b[9 + n..] + more;
      ReadOn(crc, b[9 + n..], more);
      PrependTwice([Record(b[4], b[9..9 + n])], Decode(crc, b[9 + n..]).records, Decode(crc, more));
    }
  }

  /** Bytes added to the last of the files are read after everything else. */
  lemma {:induction false} ReadOnLast(crc: Checksum, files: seq<Bytes>, more: Bytes)
    requires files != [] && DecodeFiles(crc, files).Ok?
    ensures DecodeFiles(crc, files[|files| - 1 := files[|files| - 1] + more])
            == Prepend(DecodeFiles(crc, files).records, Decode(crc, more))
    decreases |files|
  {
    hide Decode;
    var files' := files[|files| - 1 := files[|files| - 1] + more];
    if |files| == 1 {
      ReadOn(crc, files[0], more);
      assert files[1..] == [] && files'[1..] == [];
    } else {
      assert files'[1..] == files[1..][|files| - 2 := files[|files| - 1] + more];
      ReadOnLast(crc, files[1..], more);
      PrependTwice(Decode(crc, files[0]).records, DecodeFiles(crc, files[1..]).records, Decode(crc, more));
    }
  }

  /** A session appends the bytes of its records to the last file. */
  lemma {:induction false} SessionEncodes(crc: Checksum, files: seq<Bytes>, rs: seq<Record>)
    requires files != []
    ensures Session(crc, files, rs) == files[|files| - 1 := files[|files| - 1] + Encode(crc, rs)]
  {
    if rs == [] {
      assert files[|files| - 1] + [] == files[|files| - 1];
    } else {
      var front, r, last := rs[..|rs| - 1], rs[|rs| - 1], files[|files| - 1];
      SessionEncodes(crc, files, front);
      EncodeAppends(crc, front, r);
      assert front + [r] == rs;
      assert last + Encode(crc, front) + Frame(crc, r) == last + (Encode(crc, front) + Frame(crc, r));
    }
  }

  /** A session on a log that reads well, whatever number of files it has: after it the log reads as the
      earlier records and then those of the session, if and only if each of these is shorter than 2^32
      bytes. */
  lemma SessionReadsBack(crc: Checksum, files: seq<Bytes>, rs: seq<Record>)
    requires files != [] && DecodeFiles(crc, files).Ok?
    ensures DecodeFiles(crc, Session(crc, files, rs)) == Ok(DecodeFiles(crc, files).records + rs) <==> AllFit(rs)
  {
    hide Decode, DecodeFiles, Session;
    var before, now := DecodeFiles(crc, files).records, Decode(crc, Encode(crc, rs));
    SessionEncodes(crc, files, rs);
    ReadOnLast(crc, files, Encode(crc, rs));
    RoundTrip(crc, rs);
    if now.Ok? && before + now.records == before + rs {
      assert now.records == (before + now.records)[|before|..] == (before + rs)[|before|..] == rs;
    }
  }

  lemma OneReadsBack(crc: Checksum, files: seq<Bytes>, r: Record)
    requires files != [] && DecodeFiles(crc, files).Ok?
    ensures DecodeFiles(crc, Appended(crc, files, r)) == Ok(DecodeFiles(crc, files).records + [r]) <==> Fits(r)
  {
    SessionReadsBack(crc, files, [r]);
    assert [r][..0] == [];
    assert Session(crc, files, [r]) == Appended(crc, Session(crc, files, []), r);
    assert AllFit([r]) <==> Fits([r][0]);
  }
}
