/**
 A reader of stored archives written from the format's own description (PKWARE APPNOTE sections 4.3.7,
 4.3.12 and 4.3.16), and the round trip: it recovers exactly the entries that either writer was given.
 */
module ZipReader {
  import opened Bytes
  import opened Wrappers
  import opened ZipFormat
  import ZipWriters

  // The body behind a local header that agrees with its central record.
  function ReadBody(b: seq<Byte>, at: nat, name: seq<Byte>, crc: nat, size: nat): Option<seq<Byte>> {
    if at + 30 > |b| || U32(b, at) != LOCAL_SIGNATURE || U16(b, at + 8) != 0 then None
    else
      var nameEnd := at + 30 + U16(b, at + 26);
      var start := nameEnd + U16(b, at + 28);
      if start + size > |b| || b[at + 30..nameEnd] != name then None
      else if U32(b, at + 14) != crc || CrcField(b[start..start + size]) != crc then None
      else Some(b[start..start + size])
  }

  // n central records starting at a given offset.
  function ReadCentrals(b: seq<Byte>, at: nat, n: nat): Option<seq<Entry>>
    decreases n
  {
    if n == 0 then Some([])
    else if at + 46 > |b| || U32(b, at) != CENTRAL_SIGNATURE || U16(b, at + 10) != 0 then None
    else if U32(b, at + 20) != U32(b, at + 24) then None
    else
      var nameEnd := at + 46 + U16(b, at + 28);
      if nameEnd > |b| then None
      else
        var name := b[at + 46..nameEnd];
        var body := ReadBody(b, U32(b, at + 42), name, U32(b, at + 16), U32(b, at + 24));
        var rest := ReadCentrals(b, nameEnd + U16(b, at + 30) + U16(b, at + 32), n - 1);
        if body.None? || rest.None? then None else Some([Entry(name, body.value)] + rest.value)
  }

  // An archive without a comment: its last 22 bytes locate the central directory.
  function ReadArchive(b: seq<Byte>): Option<seq<Entry>> {
    var end := |b| - 22;
    if end < 0 || U32(b, end) != END_SIGNATURE || U16(b, end + 20) != 0 then None
    else if U32(b, end + 16) + U32(b, end + 12) != end then None
    else ReadCentrals(b, U32(b, end + 16), U16(b, end + 10))
  }

  // ----- fields of the three records -----

  lemma Field16(h: seq<Byte>, k: nat, n: nat)
    requires k + 2 <= |h| && n <= MAX16 && h[k] == Le16(n)[0] && h[k + 1] == Le16(n)[1]
    ensures U16(h, k) == n
  {
    Le16Bytes(n);
  }

  lemma Field32(h: seq<Byte>, k: nat, n: nat)
    requires k + 4 <= |h| && n <= MAX32
    requires h[k] == Le32(n)[0] && h[k + 1] == Le32(n)[1] && h[k + 2] == Le32(n)[2] && h[k + 3] == Le32(n)[3]
    ensures U32(h, k) == n
  {
    hide Le16, U16;
    Field16(h, k, n % 0x10000);
    Field16(h, k + 2, n / 0x10000);
  }

  lemma LocalFields(e: Entry, flags: nat)
    requires EntryFits(e)
    ensures var h := LocalHeader(e, flags);
            && U32(h, 0) == LOCAL_SIGNATURE
            && U16(h, 8) == 0
            && U32(h, 14) == CrcField(e.body)
            && U16(h, 26) == |e.name|
            && U16(h, 28) == 0
  {
    hide Le16, Le32, U16, U32, CrcField;
    var h := LocalHeader(e, flags);
    Field32(h, 0, LOCAL_SIGNATURE);
    Field16(h, 8, 0);
    Field32(h, 14, CrcField(e.body));
    Field16(h, 26, |e.name|);
    Field16(h, 28, 0);
  }

  // How a central record starts.
  lemma CentralKindFields(e: Entry, flags: nat, offset: nat)
    ensures var h := CentralHeader(e, flags, offset); U32(h, 0) == CENTRAL_SIGNATURE && U16(h, 10) == 0
  {
    hide Le16, Le32, U16, U32, CrcField;
    var h := CentralHeader(e, flags, offset);
    Field32(h, 0, CENTRAL_SIGNATURE);
    Field16(h, 10, 0);
  }

  // What it says of its file's bytes.
  lemma CentralBodyFields(e: Entry, flags: nat, offset: nat)
    requires EntryFits(e)
    ensures var h := CentralHeader(e, flags, offset);
            U32(h, 16) == CrcField(e.body) && U32(h, 20) == U32(h, 24) == |e.body|
  {
    hide Le16, Le32, U16, U32, CrcField;
    var h := CentralHeader(e, flags, offset);
    Field32(h, 16, CrcField(e.body));
    Field32(h, 20, |e.body|);
    Field32(h, 24, |e.body|);
  }

  // What it says of the file's name and place.
  lemma CentralNameFields(e: Entry, flags: nat, offset: nat)
    requires EntryFits(e) && offset <= MAX32
    ensures var h := CentralHeader(e, flags, offset);
            && U16(h, 28) == |e.name|
            && U16(h, 30) == U16(h, 32) == 0
            && U32(h, 42) == offset
  {
    hide Le16, Le32, U16, U32, CrcField;
    var h := CentralHeader(e, flags, offset);
    Field16(h, 28, |e.name|);
    Field16(h, 30, 0);
    Field16(h, 32, 0);
    Field32(h, 42, offset);
  }

  lemma EndFields(count: nat, size: nat, offset: nat)
    requires count <= MAX16 && size <= MAX32 && offset <= MAX32
    ensures var h := EndRecord(count, size, offset);
            && U32(h, 0) == END_SIGNATURE
            && U16(h, 10) == count
            && U32(h, 12) == size
            && U32(h, 16) == offset
            && U16(h, 20) == 0
  {
    hide Le16, Le32, U16, U32;
    var h := EndRecord(count, size, offset);
    Field32(h, 0, END_SIGNATURE);
    Field16(h, 10, count);
    Field32(h, 12, size);
    Field32(h, 16, offset);
    Field16(h, 20, 0);
  }

  // A record keeps its fields wherever it stands.
  lemma FieldMoves(b: seq<Byte>, off: nat, h: seq<Byte>, k: nat)
    requires At(b, off, h) && k + 2 <= |h|
    ensures off + k + 2 <= |b| && U16(b, off + k) == U16(h, k)
    ensures k + 4 <= |h| ==> off + k + 4 <= |b| && U32(b, off + k) == U32(h, k)
  {
    forall j | 0 <= j < |h| ensures b[off + j] == h[j] {
      assert b[off + j] == b[off..off + |h|][j];
    }
  }

  // ----- reading back one file -----

  lemma ReadsBody(b: seq<Byte>, at: nat, e: Entry, flags: nat)
    requires EntryFits(e) && At(b, at, LocalFile(e, flags))
    ensures ReadBody(b, at, e.name, CrcField(e.body), |e.body|) == Some(e.body)
  {
    hide LocalHeader, U16, U32, At, CrcField;
    var h := LocalHeader(e, flags);
    AtSplit(b, at, h + e.name, e.body);
    AtSplit(b, at, h, e.name);
    LocalFields(e, flags);
    FieldMoves(b, at, h, 0);
    FieldMoves(b, at, h, 8);
    FieldMoves(b, at, h, 14);
    FieldMoves(b, at, h, 26);
    FieldMoves(b, at, h, 28);
    AtMeans(b, at + 30, e.name);
    AtMeans(b, at + 30 + |e.name|, e.body);
  }

  lemma AtMeans(b: seq<Byte>, off: nat, s: seq<Byte>)
    requires At(b, off, s)
    ensures off + |s| <= |b| && b[off..off + |s|] == s
  {
  }

  // Where a file's local and central records stand.
  predicate FileAt(b: seq<Byte>, dir: nat, es: seq<Entry>, i: nat, flags: nat)
    requires i < |es|
  {
    && At(b, LocalsSize(es[..i]), LocalFile(es[i], flags))
    && At(b, dir + CentralsSize(es[..i]), CentralRecord(es[i], flags, LocalsSize(es[..i])))
  }

  lemma {:induction false} ReadsCentrals(b: seq<Byte>, dir: nat, es: seq<Entry>, i: nat, flags: nat)
    requires Fits(es) && i <= |es|
    requires forall j :: 0 <= j < |es| ==> FileAt(b, dir, es, j, flags)
    ensures ReadCentrals(b, dir + CentralsSize(es[..i]), |es| - i) == Some(es[i..])
    decreases |es| - i
  {
    hide LocalsSize, CentralsSize, LocalFile, CentralRecord, At, ReadBody, U16, U32, CrcField;
    if i < |es| {
      ReadsCentrals(b, dir, es, i + 1, flags);
      Next(es, i, flags);
      PrefixIsSmaller(es, i);
      assert FileAt(b, dir, es, i, flags);
      ReadsBody(b, LocalsSize(es[..i]), es[i], flags);
      ReadsOne(b, dir + CentralsSize(es[..i]), es[i], flags, LocalsSize(es[..i]), es[i + 1..], |es| - i);
      assert es[i..] == [es[i]] + es[i + 1..];
    } else {
      assert es[i..] == [];
    }
  }

  lemma ReadsOne(b: seq<Byte>, at: nat, e: Entry, flags: nat, offset: nat, rest: seq<Entry>, n: nat)
    requires EntryFits(e) && offset <= MAX32 && n > 0
    requires At(b, at, CentralRecord(e, flags, offset))
    requires ReadBody(b, offset, e.name, CrcField(e.body), |e.body|) == Some(e.body)
    requires ReadCentrals(b, at + CentralSize(e), n - 1) == Some(rest)
    ensures ReadCentrals(b, at, n) == Some([e] + rest)
  {
    hide CentralHeader, U16, U32, At, ReadBody, CrcField;
    var h := CentralHeader(e, flags, offset);
    AtSplit(b, at, h, e.name);
    CentralKindFields(e, flags, offset);
    CentralBodyFields(e, flags, offset);
    CentralNameFields(e, flags, offset);
    FieldMoves(b, at, h, 0);
    FieldMoves(b, at, h, 10);
    FieldMoves(b, at, h, 16);
    FieldMoves(b, at, h, 20);
    FieldMoves(b, at, h, 24);
    FieldMoves(b, at, h, 28);
    FieldMoves(b, at, h, 30);
    FieldMoves(b, at, h, 32);
    FieldMoves(b, at, h, 42);
    AtMeans(b, at + 46, e.name);
  }

  // ----- the whole archive -----

  // The records of the first n files, counted up to all of them.
  lemma {:induction false} LocalsAt(es: seq<Entry>, i: nat, n: nat, flags: nat)
    requires i < n <= |es|
    ensures At(Locals(es[..n], flags), LocalsSize(es[..i]), LocalFile(es[i], flags))
    decreases n
  {
    hide *;
    Next(es, n - 1, flags);
    if i == n - 1 {
      AtEnd(Locals(es[..i], flags), LocalFile(es[i], flags));
    } else {
      LocalsAt(es, i, n - 1, flags);
      AtLeft(Locals(es[..n - 1], flags), LocalFile(es[n - 1], flags), LocalsSize(es[..i]), LocalFile(es[i], flags));
    }
  }

  lemma {:induction false} CentralsAt(es: seq<Entry>, i: nat, n: nat, flags: nat)
    requires i < n <= |es|
    ensures At(Centrals(es[..n], flags), CentralsSize(es[..i]), CentralRecord(es[i], flags, LocalsSize(es[..i])))
    decreases n
  {
    hide *;
    Next(es, n - 1, flags);
    var c := CentralRecord(es[i], flags, LocalsSize(es[..i]));
    if i == n - 1 {
      AtEnd(Centrals(es[..i], flags), c);
    } else {
      CentralsAt(es, i, n - 1, flags);
      AtLeft(Centrals(es[..n - 1], flags), CentralRecord(es[n - 1], flags, LocalsSize(es[..n - 1])),
             CentralsSize(es[..i]), c);
    }
  }

  lemma ArchiveParts(es: seq<Entry>, flags: nat)
    ensures Archive(es, flags)
         == Locals(es, flags) + Centrals(es, flags) + EndRecord(|es|, CentralsSize(es), LocalsSize(es))
  {
  }

  lemma ArchiveHoldsLocal(es: seq<Entry>, i: nat, flags: nat)
    requires i < |es|
    ensures At(Archive(es, flags), LocalsSize(es[..i]), LocalFile(es[i], flags))
  {
    hide *;
    ArchiveParts(es, flags);
    var l, c, end := Locals(es, flags), Centrals(es, flags), EndRecord(|es|, CentralsSize(es), LocalsSize(es));
    assert es[..|es|] == es;
    LocalsAt(es, i, |es|, flags);
    AtLeft(l, c, LocalsSize(es[..i]), LocalFile(es[i], flags));
    AtLeft(l + c, end, LocalsSize(es[..i]), LocalFile(es[i], flags));
  }

  lemma ArchiveHoldsCentral(es: seq<Entry>, i: nat, flags: nat)
    requires i < |es|
    ensures At(Archive(es, flags), LocalsSize(es) + CentralsSize(es[..i]), CentralRecord(es[i], flags, LocalsSize(es[..i])))
  {
    hide *;
    ArchiveParts(es, flags);
    var l, c, end := Locals(es, flags), Centrals(es, flags), EndRecord(|es|, CentralsSize(es), LocalsSize(es));
    var record := CentralRecord(es[i], flags, LocalsSize(es[..i]));
    assert es[..|es|] == es;
    CentralsAt(es, i, |es|, flags);
    AtRight(l, c, CentralsSize(es[..i]), record);
    AtLeft(l + c, end, |l| + CentralsSize(es[..i]), record);
  }

  lemma ArchiveHolds(es: seq<Entry>, i: nat, flags: nat)
    requires i < |es|
    ensures FileAt(Archive(es, flags), LocalsSize(es), es, i, flags)
  {
    hide *;
    ArchiveHoldsLocal(es, i, flags);
    ArchiveHoldsCentral(es, i, flags);
    BothStand(Archive(es, flags), LocalsSize(es), es, i, flags);
  }

  lemma BothStand(b: seq<Byte>, dir: nat, es: seq<Entry>, i: nat, flags: nat)
    requires i < |es|
    requires At(b, LocalsSize(es[..i]), LocalFile(es[i], flags))
    requires At(b, dir + CentralsSize(es[..i]), CentralRecord(es[i], flags, LocalsSize(es[..i])))
    ensures FileAt(b, dir, es, i, flags)
  {
    hide LocalsSize, CentralsSize, LocalFile, CentralRecord, At;
  }

  /** Main result: reading an archive back recovers exactly its entries. */
  lemma ReadsBack(es: seq<Entry>, flags: nat)
    requires Fits(es)
    ensures ReadArchive(Archive(es, flags)) == Some(es)
  {
    hide LocalsSize, CentralsSize, Locals, Centrals, EndRecord, U16, U32, At, ReadCentrals, FileAt;
    var b := Archive(es, flags);
    var body := Locals(es, flags) + Centrals(es, flags);
    var end := EndRecord(|es|, CentralsSize(es), LocalsSize(es));
    forall i | 0 <= i < |es| ensures FileAt(b, LocalsSize(es), es, i, flags) {
      ArchiveHolds(es, i, flags);
    }
    ReadsCentrals(b, LocalsSize(es), es, 0, flags);
    assert es[..0] == [] && es[0..] == es;
    ZipWriters.NothingYet(flags);
    AtEnd(body, end);
    EndFields(|es|, CentralsSize(es), LocalsSize(es));
    FieldMoves(b, |body|, end, 0);
    FieldMoves(b, |body|, end, 10);
    FieldMoves(b, |body|, end, 12);
    FieldMoves(b, |body|, end, 16);
    FieldMoves(b, |body|, end, 20);
  }

  // The two writers fail on the same inputs and otherwise read back to the same entries.
  method BothWritersReadBack(es: seq<Entry>) returns (exports: Option<seq<Entry>>, backup: Option<seq<Entry>>)
    ensures exports == backup == if Fits(es) then Some(es) else None
  {
    var a := ZipWriters.BuildZipStore(es);
    var b := ZipWriters.ZipStore(es);
    if Fits(es) {
      ReadsBack(es, UTF8_NAMES);
      ReadsBack(es, 0);
    }
    exports := if a.Ok? then ReadArchive(a.value) else None;
    backup := if b.Ok? then ReadArchive(b.value) else None;
  }
}
