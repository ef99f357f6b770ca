/**
 The layout of a stored ZIP archive (PKWARE APPNOTE sections 4.3.7, 4.3.12 and 4.3.16): local files, then
 one central record per file holding the local file's offset, then the end record.
 */
module ZipFormat {
  import opened Bytes
  import Crc32

  const LOCAL_SIGNATURE := 0x04034b50
  const CENTRAL_SIGNATURE := 0x02014b50
  const END_SIGNATURE := 0x06054b50
  const UTF8_NAMES := 0x0800

  // The name is already encoded.
  datatype Entry = Entry(name: seq<Byte>, body: seq<Byte>)

  function Octets(s: seq<Byte>): seq<bv8> {
    seq(|s|, i requires 0 <= i < |s| => s[i] as bv8)
  }

  function CrcField(body: seq<Byte>): (n: nat)
    ensures n <= MAX32
  {
    Crc32.Crc(Octets(body)) as nat
  }

  function LocalHeader(e: Entry, flags: nat): (s: seq<Byte>)
    ensures |s| == 30
  {
    Le32(LOCAL_SIGNATURE) + Le16(20) + Le16(flags) + Le16(0) + Le16(0) + Le16(0)
    + Le32(CrcField(e.body)) + Le32(|e.body|) + Le32(|e.body|) + Le16(|e.name|) + Le16(0)
  }

  function LocalFile(e: Entry, flags: nat): (s: seq<Byte>)
    ensures |s| == LocalSize(e)
  {
    LocalHeader(e, flags) + e.name + e.body
  }

  function CentralHeader(e: Entry, flags: nat, offset: nat): (s: seq<Byte>)
    ensures |s| == 46
  {
    Le32(CENTRAL_SIGNATURE) + Le16(20) + Le16(20) + Le16(flags) + Le16(0) + Le16(0) + Le16(0)
    + Le32(CrcField(e.body)) + Le32(|e.body|) + Le32(|e.body|) + Le16(|e.name|) + Le16(0) + Le16(0)
    + Le16(0) + Le16(0) + Le32(0) + Le32(offset)
  }

  function CentralRecord(e: Entry, flags: nat, offset: nat): (s: seq<Byte>)
    ensures |s| == CentralSize(e)
  {
    CentralHeader(e, flags, offset) + e.name
  }

  function EndRecord(count: nat, size: nat, offset: nat): (s: seq<Byte>)
    ensures |s| == 22
  {
    Le32(END_SIGNATURE) + Le16(0) + Le16(0) + Le16(count) + Le16(count) + Le32(size) + Le32(offset) + Le16(0)
  }

  function LocalSize(e: Entry): nat { 30 + |e.name| + |e.body| }

  function CentralSize(e: Entry): nat { 46 + |e.name| }

  function LocalsSize(es: seq<Entry>): nat {
    if es == [] then 0 else LocalsSize(es[..|es| - 1]) + LocalSize(es[|es| - 1])
  }

  function CentralsSize(es: seq<Entry>): nat {
    if es == [] then 0 else CentralsSize(es[..|es| - 1]) + CentralSize(es[|es| - 1])
  }

  function Locals(es: seq<Entry>, flags: nat): (s: seq<Byte>)
    ensures |s| == LocalsSize(es)
  {
    if es == [] then [] else Locals(es[..|es| - 1], flags) + LocalFile(es[|es| - 1], flags)
  }

  function Centrals(es: seq<Entry>, flags: nat): (s: seq<Byte>)
    ensures |s| == CentralsSize(es)
  {
    if es == [] then []
    else
      var init := es[..|es| - 1];
      Centrals(init, flags) + CentralRecord(es[|es| - 1], flags, LocalsSize(init))
  }

  function Archive(es: seq<Entry>, flags: nat): seq<Byte> {
    Locals(es, flags) + Centrals(es, flags) + EndRecord(|es|, CentralsSize(es), LocalsSize(es))
  }

  predicate EntryFits(e: Entry) {
    |e.name| <= MAX16 && |e.body| <= MAX32
  }

  // Every field value is within its field's width.
  predicate Fits(es: seq<Entry>) {
    && |es| <= MAX16
    && (forall i :: 0 <= i < |es| ==> EntryFits(es[i]))
    && LocalsSize(es) <= MAX32
    && CentralsSize(es) <= MAX32
  }

  lemma Next(es: seq<Entry>, i: nat, flags: nat)
    requires i < |es|
    ensures LocalsSize(es[..i + 1]) == LocalsSize(es[..i]) + LocalSize(es[i])
    ensures CentralsSize(es[..i + 1]) == CentralsSize(es[..i]) + CentralSize(es[i])
    ensures Locals(es[..i + 1], flags) == Locals(es[..i], flags) + LocalFile(es[i], flags)
    ensures Centrals(es[..i + 1], flags)
            == Centrals(es[..i], flags) + CentralRecord(es[i], flags, LocalsSize(es[..i]))
  {
    hide LocalFile, CentralRecord, LocalSize, CentralSize;
    assert es[..i + 1][..i] == es[..i];
  }

  lemma {:induction false} LocalsGrow(es: seq<Entry>, i: nat)
    requires i <= |es|
    ensures LocalsSize(es[..i]) <= LocalsSize(es)
    decreases |es|
  {
    hide LocalSize;
    if i == |es| {
      assert es[..i] == es;
    } else {
      var init := es[..|es| - 1];
      LocalsGrow(init, i);
      assert init[..i] == es[..i];
    }
  }

  lemma {:induction false} CentralsGrow(es: seq<Entry>, i: nat)
    requires i <= |es|
    ensures CentralsSize(es[..i]) <= CentralsSize(es)
    decreases |es|
  {
    hide CentralSize;
    if i == |es| {
      assert es[..i] == es;
    } else {
      var init := es[..|es| - 1];
      CentralsGrow(init, i);
      assert init[..i] == es[..i];
    }
  }

  lemma PrefixIsSmaller(es: seq<Entry>, i: nat)
    requires i <= |es|
    ensures LocalsSize(es[..i]) <= LocalsSize(es) && CentralsSize(es[..i]) <= CentralsSize(es)
  {
    hide *;
    LocalsGrow(es, i);
    CentralsGrow(es, i);
  }
}
