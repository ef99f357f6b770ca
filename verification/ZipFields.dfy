/**
 Every field of the three records of an archive, by its offset and width in PKWARE's APPNOTE sections 4.3.7, 4.3.12 and
 4.3.16: stored entries of version 2.0, without times, extra fields, comments or attributes, on one disk.
 */
module ZipFields {
  import opened Bytes
  import opened ZipFormat
  import opened ZipReader

  // The records start with "PK" and two numbers.
  lemma LocalSignature(e: Entry, flags: nat)
    ensures LocalHeader(e, flags)[..4] == [0x50, 0x4b, 3, 4]
  {
    hide CrcField, Le16;
    FirstFour(LocalHeader(e, flags), 0x04034b50);
    Spelled(0x04034b50, 0x50, 0x4b, 3, 4);
  }

  lemma CentralSignature(e: Entry, flags: nat, offset: nat)
    ensures CentralHeader(e, flags, offset)[..4] == [0x50, 0x4b, 1, 2]
  {
    hide CrcField, Le16;
    FirstFour(CentralHeader(e, flags, offset), 0x02014b50);
    Spelled(0x02014b50, 0x50, 0x4b, 1, 2);
  }

  lemma EndSignature(count: nat, size: nat, offset: nat)
    ensures EndRecord(count, size, offset)[..4] == [0x50, 0x4b, 5, 6]
  {
    hide Le16;
    FirstFour(EndRecord(count, size, offset), 0x06054b50);
    Spelled(0x06054b50, 0x50, 0x4b, 5, 6);
  }

  lemma Spelled(n: nat, a: Byte, b: Byte, c: Byte, d: Byte)
    requires n == a as nat + 256 * (b as nat + 256 * (c as nat + 256 * d as nat))
    ensures Le32(n) == [a, b, c, d]
  {
    LowBytes(a, b, c, d);
  }

  lemma LowBytes(a: Byte, b: Byte, c: Byte, d: Byte)
    ensures var n := a as nat + 256 * (b as nat + 256 * (c as nat + 256 * d as nat));
            && n % 0x10000 == a as nat + 256 * b as nat && n / 0x10000 == c as nat + 256 * d as nat
  {
  }

  lemma FirstFour(h: seq<Byte>, n: nat)
    requires |h| >= 4 && h[0] == Le32(n)[0] && h[1] == Le32(n)[1] && h[2] == Le32(n)[2] && h[3] == Le32(n)[3]
    ensures h[..4] == Le32(n)
  {
    hide Le32;
    assert h[..4] == [h[0], h[1], h[2], h[3]];
  }

  /** A local file header. */
  lemma LocalHeaderFields(e: Entry, flags: nat)
    requires EntryFits(e) && flags <= 0xffff
    ensures var h := LocalHeader(e, flags);
            && U16(h, 4) == 20 && U16(h, 6) == flags && U16(h, 8) == 0 && U16(h, 10) == 0 && U16(h, 12) == 0
            && U32(h, 14) == CrcField(e.body) && U32(h, 18) == |e.body| && U32(h, 22) == |e.body|
            && U16(h, 26) == |e.name| && U16(h, 28) == 0
  {
    hide Le16, Le32, U16, U32, CrcField;
    var h := LocalHeader(e, flags);
    Field16(h, 4, 20);
    Field16(h, 6, flags);
    Field16(h, 8, 0);
    Field16(h, 10, 0);
    Field16(h, 12, 0);
    Field32(h, 14, CrcField(e.body));
    Field32(h, 18, |e.body|);
    Field32(h, 22, |e.body|);
    Field16(h, 26, |e.name|);
    Field16(h, 28, 0);
  }

  /** A central record: what the local header says as well. */
  lemma CentralHeaderFields(e: Entry, flags: nat, offset: nat)
    requires EntryFits(e) && flags <= 0xffff
    ensures var h := CentralHeader(e, flags, offset);
            && U16(h, 4) == 20 && U16(h, 6) == 20 && U16(h, 8) == flags
            && U16(h, 10) == 0 && U16(h, 12) == 0 && U16(h, 14) == 0
  {
    hide Le16, Le32, U16, U32, CrcField;
    var h := CentralHeader(e, flags, offset);
    Field16(h, 4, 20);
    Field16(h, 6, 20);
    Field16(h, 8, flags);
    Field16(h, 10, 0);
    Field16(h, 12, 0);
    Field16(h, 14, 0);
  }

  /** And the sizes, the name's length and the place of the file. */
  lemma CentralPlaceFields(e: Entry, flags: nat, offset: nat)
    requires EntryFits(e) && offset <= 0xffffffff
    ensures var h := CentralHeader(e, flags, offset);
            && U32(h, 16) == CrcField(e.body) && U32(h, 20) == |e.body| && U32(h, 24) == |e.body|
            && U16(h, 28) == |e.name| && U16(h, 30) == 0 && U16(h, 32) == 0 && U16(h, 34) == 0 && U16(h, 36) == 0
            && U32(h, 38) == 0 && U32(h, 42) == offset
  {
    hide Le16, Le32, U16, U32, CrcField;
    var h := CentralHeader(e, flags, offset);
    Field16(h, 34, 0);
    Field16(h, 36, 0);
    Field32(h, 38, 0);
    CentralBodyFields(e, flags, offset);
    CentralNameFields(e, flags, offset);
  }

  /** The end record counts the entries twice, on disk and in all. */
  lemma EndRecordFields(count: nat, size: nat, offset: nat)
    requires count <= 0xffff && size <= 0xffffffff && offset <= 0xffffffff
    ensures var h := EndRecord(count, size, offset);
            && U16(h, 4) == 0 && U16(h, 6) == 0 && U16(h, 8) == count && U16(h, 10) == count
            && U32(h, 12) == size && U32(h, 16) == offset && U16(h, 20) == 0
  {
    hide Le16, Le32, U16, U32;
    var h := EndRecord(count, size, offset);
    Field16(h, 4, 0);
    Field16(h, 6, 0);
    Field16(h, 8, count);
    EndFields(count, size, offset);
  }

  // The exports writer marks its names as UTF-8: bit 11 of the flags.
  lemma NamesAreMarked(e: Entry)
    requires EntryFits(e)
    ensures U16(LocalHeader(e, UTF8_NAMES), 6) == 2048
  {
    hide LocalHeader, U16, U32;
    LocalHeaderFields(e, UTF8_NAMES);
  }
}
