/**
 The two ZIP writers (zip-store.ts:21-81, backup-export.service.ts:17-72). Both fill header buffers field by
 field in place and keep a running offset; they differ in how they hold the name and in the flags field.
 A field value too large for its width is the RangeError thrown by the buffer write.
 */
module ZipWriters {
  import opened Bytes
  import opened Wrappers
  import opened ZipFormat
  import Crc32
  import Sequences

  method ExportsLocal(name: seq<Byte>, data: seq<Byte>, crc: nat) returns (r: Result<seq<Byte>, RangeError>)
    requires crc == CrcField(data)
    ensures r == if EntryFits(Entry(name, data)) then Ok(LocalFile(Entry(name, data), UTF8_NAMES))
                 else Err(RangeError)
  {
    hide SameFrom, Filled, Le16, Le32, CrcField;
    var local := new Byte[30](_ => 0);
    NothingFilled(local);
    FirstField(Le32(LOCAL_SIGNATURE));
    Put32(local, 0x04034b50, 0);
    Put16(local, 20, 4);
    Put16(local, 0x0800, 6);
    Put16(local, 0, 8);
    Put16(local, 0, 10);
    Put16(local, 0, 12);
    Put32(local, crc, 14);
    :- Write32(local, |data|, 18);
    Put32(local, |data|, 22);
    :- Write16(local, |name|, 26);
    Put16(local, 0, 28);
    AllFilled(local);
    return Ok(local[..] + name + data);
  }

  method ExportsCentral(name: seq<Byte>, data: seq<Byte>, crc: nat, offset: nat)
    returns (r: Result<seq<Byte>, RangeError>)
    requires crc == CrcField(data)
    ensures r == if EntryFits(Entry(name, data)) && offset <= MAX32
                 then Ok(CentralRecord(Entry(name, data), UTF8_NAMES, offset))
                 else Err(RangeError)
  {
    hide SameFrom, Filled, Le16, Le32, CrcField;
    var central := new Byte[46](_ => 0);
    NothingFilled(central);
    FirstField(Le32(CENTRAL_SIGNATURE));
    Put32(central, 0x02014b50, 0);
    Put16(central, 20, 4);
    Put16(central, 20, 6);
    Put16(central, 0x0800, 8);
    Put16(central, 0, 10);
    Put16(central, 0, 12);
    Put16(central, 0, 14);
    Put32(central, crc, 16);
    :- Write32(central, |data|, 20);
    Put32(central, |data|, 24);
    :- Write16(central, |name|, 28);
    Put16(central, 0, 30);
    Put16(central, 0, 32);
    Put16(central, 0, 34);
    Put16(central, 0, 36);
    Put32(central, 0, 38);
    :- Write32(central, offset, 42);
    AllFilled(central);
    return Ok(central[..] + name);
  }

  // The backup writer's header buffers are long enough for the name, which is copied in.
  method BackupLocal(name: seq<Byte>, data: seq<Byte>, crc: nat) returns (r: Result<seq<Byte>, RangeError>)
    requires crc == CrcField(data)
    ensures r == if EntryFits(Entry(name, data)) then Ok(LocalHeader(Entry(name, data), 0) + name)
                 else Err(RangeError)
  {
    hide SameFrom, Filled, Le16, Le32, CrcField;
    var local := new Byte[30 + |name|](_ => 0);
    NothingFilled(local);
    FirstField(Le32(LOCAL_SIGNATURE));
    Put32(local, 0x04034b50, 0);
    Put16(local, 20, 4);
    Put16(local, 0, 6);
    Put16(local, 0, 8);
    Put16(local, 0, 10);
    Put16(local, 0, 12);
    Put32(local, crc, 14);
    :- Write32(local, |data|, 18);
    Put32(local, |data|, 22);
    :- Write16(local, |name|, 26);
    Put16(local, 0, 28);
    CopyInto(name, local, 30);
    AllFilled(local);
    return Ok(local[..]);
  }

  method BackupCentral(name: seq<Byte>, data: seq<Byte>, crc: nat, offset: nat)
    returns (r: Result<seq<Byte>, RangeError>)
    requires crc == CrcField(data)
    ensures r == if EntryFits(Entry(name, data)) && offset <= MAX32
                 then Ok(CentralRecord(Entry(name, data), 0, offset))
                 else Err(RangeError)
  {
    hide SameFrom, Filled, Le16, Le32, CrcField;
    var cen := new Byte[46 + |name|](_ => 0);
    NothingFilled(cen);
    FirstField(Le32(CENTRAL_SIGNATURE));
    Put32(cen, 0x02014b50, 0);
    Put16(cen, 20, 4);
    Put16(cen, 20, 6);
    Put16(cen, 0, 8);
    Put16(cen, 0, 10);
    Put16(cen, 0, 12);
    Put16(cen, 0, 14);
    Put32(cen, crc, 16);
    :- Write32(cen, |data|, 20);
    Put32(cen, |data|, 24);
    :- Write16(cen, |name|, 28);
    Put16(cen, 0, 30);
    Put16(cen, 0, 32);
    Put16(cen, 0, 34);
    Put16(cen, 0, 36);
    Put32(cen, 0, 38);
    :- Write32(cen, offset, 42);
    CopyInto(name, cen, 46);
    AllFilled(cen);
    return Ok(cen[..]);
  }

  // Both writers end the same way (zip-store.ts:70-78, backup-export.service.ts:62-70).
  method WriteEnd(count: nat, size: nat, offset: nat) returns (r: Result<seq<Byte>, RangeError>)
    ensures r == if count <= MAX16 && size <= MAX32 && offset <= MAX32
                 then Ok(EndRecord(count, size, offset)) else Err(RangeError)
  {
    hide SameFrom, Filled, Le16, Le32;
    var end := new Byte[22](_ => 0);
    NothingFilled(end);
    FirstField(Le32(END_SIGNATURE));
    Put32(end, 0x06054b50, 0);
    Put16(end, 0, 4);
    Put16(end, 0, 6);
    :- Write16(end, count, 8);
    Put16(end, count, 10);
    :- Write32(end, size, 12);
    :- Write32(end, offset, 16);
    Put16(end, 0, 20);
    AllFilled(end);
    return Ok(end[..]);
  }

  lemma TooBig(es: seq<Entry>, i: nat)
    requires i < |es|
    requires !EntryFits(es[i]) || LocalsSize(es[..i]) > MAX32
    ensures !Fits(es)
  {
    PrefixIsSmaller(es, i);
  }

  lemma ClosesArchive(parts: seq<seq<Byte>>, dir: seq<Byte>, end: seq<Byte>)
    ensures Concat(parts + [dir] + [end]) == Concat(parts) + dir + end
  {
    hide *;
    ConcatPush(parts, dir);
    ConcatPush(parts + [dir], end);
  }

  // A local header with its name, then the body, pushed one after the other.
  lemma PushFile(parts: seq<seq<Byte>>, local: seq<Byte>, body: seq<Byte>)
    ensures Concat(parts + [local] + [body]) == Concat(parts) + (local + body)
  {
    hide *;
    ClosesArchive(parts, local, body);
    Sequences.Assoc(Concat(parts), local, body);
  }

  /** The exports writer: the archive with UTF-8 names, or a RangeError exactly when a field does not fit. */
  method BuildZipStore(entries: seq<Entry>) returns (r: Result<seq<Byte>, RangeError>)
    ensures r == if Fits(entries) then Ok(Archive(entries, UTF8_NAMES)) else Err(RangeError)
  {
    hide LocalFile, CentralRecord, LocalsSize, CentralsSize, Locals, Centrals, EndRecord, Concat, CrcField, EntryFits,
        Octets;
    var localParts, centralParts := [], [];
    var offset := 0;
    NothingYet(UTF8_NAMES);
    assert entries[..0] == [];
    for i := 0 to |entries|
      invariant offset == LocalsSize(entries[..i])
      invariant Concat(localParts) == Locals(entries[..i], UTF8_NAMES)
      invariant Concat(centralParts) == Centrals(entries[..i], UTF8_NAMES)
      invariant forall j :: 0 <= j < i ==> EntryFits(entries[j])
    {
      var entry := entries[i];
      if !EntryFits(entry) || offset > MAX32 { TooBig(entries, i); }
      Next(entries, i, UTF8_NAMES);
      var sum := Crc32.Crc32OfExports(Octets(entry.body));
      var crc := CrcNumber(entry.body, sum);
      var localFile :- ExportsLocal(entry.name, entry.body, crc);
      ConcatPush(localParts, localFile);
      localParts := localParts + [localFile];
      var central :- ExportsCentral(entry.name, entry.body, crc, offset);
      ConcatPush(centralParts, central);
      centralParts := centralParts + [central];
      offset := offset + |localFile|;
    }
    assert entries[..|entries|] == entries;
    var centralDir := Concat(centralParts);
    var end :- WriteEnd(|entries|, |centralDir|, offset);
    ClosesArchive(localParts, centralDir, end);
    return Ok(Concat(localParts + [centralDir] + [end]));
  }

  /** The backup writer: the archive without the UTF-8 flag, on exactly the same inputs. */
  method ZipStore(files: seq<Entry>) returns (r: Result<seq<Byte>, RangeError>)
    ensures r == if Fits(files) then Ok(Archive(files, 0)) else Err(RangeError)
  {
    hide LocalHeader, CentralRecord, LocalsSize, CentralsSize, Locals, Centrals, EndRecord, Concat, CrcField,
        EntryFits, Octets;
    var parts, central := [], [];
    var offset := 0;
    NothingYet(0);
    assert files[..0] == [];
    for i := 0 to |files|
      invariant offset == LocalsSize(files[..i])
      invariant Concat(parts) == Locals(files[..i], 0)
      invariant Concat(central) == Centrals(files[..i], 0)
      invariant forall j :: 0 <= j < i ==> EntryFits(files[j])
    {
      var f := files[i];
      if !EntryFits(f) || offset > MAX32 { TooBig(files, i); }
      Next(files, i, 0);
      var sum := Crc32.Crc32OfBackup(Octets(f.body));
      var crc := CrcNumber(f.body, sum);
      var local :- BackupLocal(f.name, f.body, crc);
      PushFile(parts, local, f.body);
      parts := parts + [local] + [f.body];
      var cen :- BackupCentral(f.name, f.body, crc, offset);
      ConcatPush(central, cen);
      central := central + [cen];
      offset := offset + |local| + |f.body|;
    }
    assert files[..|files|] == files;
    var centralBuf := Concat(central);
    var end :- WriteEnd(|files|, |centralBuf|, offset);
    ClosesArchive(parts, centralBuf, end);
    return Ok(Concat(parts + [centralBuf] + [end]));
  }

  lemma NothingYet(flags: nat)
    ensures LocalsSize([]) == CentralsSize([]) == 0
    ensures Locals([], flags) == Centrals([], flags) == Concat([]) == []
  {
  }

  // The register's value as the unsigned number the writers store.
  function CrcNumber(body: seq<Byte>, sum: bv32): (n: nat)
    requires sum == Crc32.Crc(Octets(body))
    ensures n == CrcField(body)
  {
    sum as nat
  }
}
