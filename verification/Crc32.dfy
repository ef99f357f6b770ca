/**
 CRC-32 (zip-store.ts, backup-export.service.ts): two register loops with differently written bit steps,
 one function, and its error detection. The register is a 32-bit word; JavaScript's signed intermediate
 values have the same bits. Word operations are named so that proofs over whole inputs need not look
 inside them.
 */
module Crc32 {
  const POLY: bv32 := 0xedb88320
  const ONES: bv32 := 0xffffffff

  function Xor(c: bv32, d: bv32): bv32 { c ^ d }

  function Not(c: bv32): bv32 { !c }

  function Wide(b: bv8): bv32 { b as bv32 }

  function Up8(w: bv32): bv32 { w << 8 }

  function Down(w: bv32): bv32 { w >> 1 }

  function LowBit(w: bv32): bv32 { w & 1 }

  predicate Odd(w: bv32) { LowBit(w) == 1 }

  function BitStep(c: bv32): bv32 {
    if Odd(c) then Xor(Down(c), POLY) else Down(c)
  }

  // The exports writer always mixes in the polynomial or zero.
  function ExportsBitStep(c: bv32): bv32 {
    Xor(Down(c), if LowBit(c) != 0 then POLY else 0)
  }

  // The backup writer chooses the step by the low bit.
  function BackupBitStep(c: bv32): bv32 {
    if LowBit(c) != 0 then Xor(Down(c), POLY) else Down(c)
  }

  function Bits(c: bv32, n: nat): bv32
    decreases n
  {
    if n == 0 then c else Bits(BitStep(c), n - 1)
  }

  function ByteStep(c: bv32, b: bv8): bv32 {
    Bits(Xor(c, Wide(b)), 8)
  }

  function Register(c: bv32, s: seq<bv8>): bv32
    decreases s
  {
    if s == [] then c else Register(ByteStep(c, s[0]), s[1..])
  }

  function Crc(s: seq<bv8>): bv32 {
    Not(Register(ONES, s))
  }

  // ----- the two loops -----

  lemma BothStepsAreOne(c: bv32)
    ensures ExportsBitStep(c) == BackupBitStep(c) == BitStep(c)
  {
    hide Xor, Down, LowBit;
    ZeroOrOne(c);
    XorZeroRight(Down(c));
  }

  lemma ZeroOrOne(c: bv32)
    ensures LowBit(c) == 0 || LowBit(c) == 1
  {
  }

  lemma {:induction false} BitsSnoc(c: bv32, n: nat)
    ensures Bits(c, n + 1) == BitStep(Bits(c, n))
    decreases n
  {
    hide BitStep;
    if n > 0 { BitsSnoc(BitStep(c), n - 1); }
  }

  lemma {:induction false} RegisterSnoc(c: bv32, s: seq<bv8>, b: bv8)
    ensures Register(c, s + [b]) == ByteStep(Register(c, s), b)
    decreases s
  {
    hide ByteStep;
    if s == [] {
      assert ([] + [b])[1..] == [];
    } else {
      RegisterSnoc(ByteStep(c, s[0]), s[1..], b);
      assert (s + [b])[0] == s[0] && (s + [b])[1..] == s[1..] + [b];
    }
  }

  method Crc32OfExports(buf: seq<bv8>) returns (r: bv32)
    ensures r == Crc(buf)
  {
    hide BitStep, ExportsBitStep, BackupBitStep, Xor, Wide, Not;
    var crc: bv32 := ONES;
    for i := 0 to |buf|
      invariant crc == Register(ONES, buf[..i])
    {
      crc := Xor(crc, Wide(buf[i]));
      ghost var start := crc;
      for j := 0 to 8
        invariant crc == Bits(start, j)
      {
        BitsSnoc(start, j);
        BothStepsAreOne(crc);
        crc := ExportsBitStep(crc);
      }
      RegisterSnoc(ONES, buf[..i], buf[i]);
      assert buf[..i + 1] == buf[..i] + [buf[i]];
    }
    assert buf[..|buf|] == buf;
    r := Not(crc);
  }

  method Crc32OfBackup(buf: seq<bv8>) returns (r: bv32)
    ensures r == Crc(buf)
  {
    hide BitStep, ExportsBitStep, BackupBitStep, Xor, Wide, Not;
    var c: bv32 := ONES;
    for i := 0 to |buf|
      invariant c == Register(ONES, buf[..i])
    {
      c := Xor(c, Wide(buf[i]));
      ghost var start := c;
      for k := 0 to 8
        invariant c == Bits(start, k)
      {
        BitsSnoc(start, k);
        BothStepsAreOne(c);
        c := BackupBitStep(c);
      }
      RegisterSnoc(ONES, buf[..i], buf[i]);
      assert buf[..i + 1] == buf[..i] + [buf[i]];
    }
    assert buf[..|buf|] == buf;
    r := Not(c);
  }

  // ----- the step is linear and invertible -----

  lemma StepInjective(c: bv32, d: bv32)
    requires BitStep(c) == BitStep(d)
    ensures c == d
  {
  }

  lemma OddXor(c: bv32, d: bv32)
    ensures Odd(Xor(c, d)) <==> Odd(c) != Odd(d)
  {
    ZeroOrOne(c);
    ZeroOrOne(d);
    assert (c ^ d) & 1 == (c & 1) ^ (d & 1);
  }

  lemma DownXor(c: bv32, d: bv32)
    ensures Down(Xor(c, d)) == Xor(Down(c), Down(d))
  {
  }

  lemma XorAssoc(a: bv32, b: bv32, c: bv32)
    ensures Xor(Xor(a, b), c) == Xor(a, Xor(b, c))
  {
  }

  lemma XorSwap(a: bv32, b: bv32)
    ensures Xor(a, b) == Xor(b, a)
  {
  }

  lemma XorSelf(a: bv32, b: bv32)
    ensures Xor(Xor(a, b), b) == a
  {
  }

  lemma XorZeroRight(a: bv32)
    ensures Xor(a, 0) == a
  {
  }

  lemma NotInjective(a: bv32, b: bv32)
    requires Not(a) == Not(b)
    ensures a == b
  {
  }

  lemma XorCancel(c: bv32, d: bv32, x: bv32)
    requires Xor(c, x) == Xor(d, x)
    ensures c == d
  {
    hide Xor;
    XorSelf(c, x);
    XorSelf(d, x);
  }

  lemma StepLinear(c: bv32, d: bv32)
    ensures BitStep(Xor(c, d)) == Xor(BitStep(c), BitStep(d))
  {
    hide Xor, Down, Odd;
    OddXor(c, d);
    DownXor(c, d);
    var x, y := Down(c), Down(d);
    XorAssoc(x, POLY, y);
    XorSwap(POLY, y);
    XorAssoc(x, y, POLY);
    XorAssoc(Xor(x, POLY), y, POLY);
    XorSelf(Xor(x, y), POLY);
  }

  lemma {:induction false} BitsInjective(c: bv32, d: bv32, n: nat)
    requires Bits(c, n) == Bits(d, n)
    ensures c == d
    decreases n
  {
    hide BitStep;
    if n > 0 {
      BitsInjective(BitStep(c), BitStep(d), n - 1);
      StepInjective(c, d);
    }
  }

  lemma {:induction false} BitsLinear(c: bv32, d: bv32, n: nat)
    ensures Bits(Xor(c, d), n) == Xor(Bits(c, n), Bits(d, n))
    decreases n
  {
    hide BitStep, Xor;
    if n > 0 {
      StepLinear(c, d);
      BitsLinear(BitStep(c), BitStep(d), n - 1);
    }
  }

  lemma {:induction false} BitsAdd(c: bv32, m: nat, n: nat)
    ensures Bits(Bits(c, m), n) == Bits(c, m + n)
    decreases m
  {
    hide BitStep;
    if m > 0 { BitsAdd(BitStep(c), m - 1, n); }
  }

  lemma {:induction false} RegisterInjective(c: bv32, d: bv32, s: seq<bv8>)
    requires Register(c, s) == Register(d, s)
    ensures c == d
    decreases s
  {
    hide Bits, Xor, Wide;
    if s != [] {
      RegisterInjective(ByteStep(c, s[0]), ByteStep(d, s[0]), s[1..]);
      BitsInjective(Xor(c, Wide(s[0])), Xor(d, Wide(s[0])), 8);
      XorCancel(c, d, Wide(s[0]));
    }
  }

  lemma {:induction false} RegisterAppend(c: bv32, s: seq<bv8>, t: seq<bv8>)
    ensures Register(c, s + t) == Register(Register(c, s), t)
    decreases s
  {
    hide ByteStep;
    if s == [] {
      assert [] + t == t;
    } else {
      RegisterAppend(ByteStep(c, s[0]), s[1..], t);
      assert (s + t)[0] == s[0] && (s + t)[1..] == s[1..] + t;
    }
  }

  // ----- up to four bytes act as one word -----

  function Word(m: seq<bv8>): bv32 {
    if m == [] then 0 else Xor(Wide(m[0]), Up8(Word(m[1..])))
  }

  // Words of at most k bytes.
  predicate Narrow(w: bv32, k: nat) {
    match k
    case 0 => w == 0
    case 1 => w <= 0xff
    case 2 => w <= 0xffff
    case 3 => w <= 0xffffff
    case _ => true
  }

  lemma NarrowGrows(b: bv8, w: bv32, k: nat)
    requires Narrow(w, k)
    ensures Narrow(Xor(Wide(b), Up8(w)), k + 1)
  {
  }

  lemma {:induction false} WordIsNarrow(m: seq<bv8>)
    ensures Narrow(Word(m), |m|)
  {
    hide Xor, Wide, Up8, Narrow;
    if m == [] {
      ZeroIsNarrow();
    } else {
      WordIsNarrow(m[1..]);
      NarrowGrows(m[0], Word(m[1..]), |m[1..]|);
    }
  }

  lemma ZeroIsNarrow()
    ensures Narrow(0, 0)
  {
  }

  // Shifting up by eight leaves eight zero bits, which eight steps shift out again.
  function Up(w: bv32, k: nat): bv32
    requires k <= 8
  {
    match k
    case 0 => w
    case 1 => w << 1
    case 2 => w << 2
    case 3 => w << 3
    case 4 => w << 4
    case 5 => w << 5
    case 6 => w << 6
    case 7 => w << 7
    case 8 => w << 8
  }

  lemma EvenStep(c: bv32)
    requires LowBit(c) == 0
    ensures BitStep(c) == Down(c)
  {
  }

  lemma ShiftBy1(w: bv32)
    requires w <= 0xffffff
    ensures LowBit(w << 1) == 0 && Down(w << 1) == w
  {
  }

  lemma ShiftBy2(w: bv32)
    requires w <= 0xffffff
    ensures LowBit(w << 2) == 0 && Down(w << 2) == w << 1
  {
  }

  lemma ShiftBy3(w: bv32)
    requires w <= 0xffffff
    ensures LowBit(w << 3) == 0 && Down(w << 3) == w << 2
  {
  }

  lemma ShiftBy4(w: bv32)
    requires w <= 0xffffff
    ensures LowBit(w << 4) == 0 && Down(w << 4) == w << 3
  {
  }

  lemma ShiftBy5(w: bv32)
    requires w <= 0xffffff
    ensures LowBit(w << 5) == 0 && Down(w << 5) == w << 4
  {
  }

  lemma ShiftBy6(w: bv32)
    requires w <= 0xffffff
    ensures LowBit(w << 6) == 0 && Down(w << 6) == w << 5
  {
  }

  lemma ShiftBy7(w: bv32)
    requires w <= 0xffffff
    ensures LowBit(w << 7) == 0 && Down(w << 7) == w << 6
  {
  }

  lemma ShiftBy8(w: bv32)
    requires w <= 0xffffff
    ensures LowBit(w << 8) == 0 && Down(w << 8) == w << 7
  {
  }

  lemma DownUp(w: bv32, k: nat)
    requires w <= 0xffffff && 1 <= k <= 8
    ensures LowBit(Up(w, k)) == 0 && Down(Up(w, k)) == Up(w, k - 1)
  {
    hide Down, LowBit;
    match k
    case 1 => ShiftBy1(w);
    case 2 => ShiftBy2(w);
    case 3 => ShiftBy3(w);
    case 4 => ShiftBy4(w);
    case 5 => ShiftBy5(w);
    case 6 => ShiftBy6(w);
    case 7 => ShiftBy7(w);
    case 8 => ShiftBy8(w);
  }

  lemma UpStep(w: bv32, k: nat)
    requires w <= 0xffffff && 1 <= k <= 8
    ensures BitStep(Up(w, k)) == Up(w, k - 1)
  {
    hide *;
    DownUp(w, k);
    EvenStep(Up(w, k));
  }

  lemma {:induction false} StepsUndoUp(w: bv32, k: nat)
    requires w <= 0xffffff && k <= 8
    ensures Bits(Up(w, k), k) == w
  {
    hide BitStep, Up;
    UpNone(w);
    if k > 0 {
      UpStep(w, k);
      StepsUndoUp(w, k - 1);
    }
  }

  lemma UpNone(w: bv32)
    ensures Up(w, 0) == w
  {
  }

  lemma EightStepsUndoUp8(w: bv32, k: nat)
    requires k <= 3 && Narrow(w, k)
    ensures Bits(Up8(w), 8) == w
  {
    StepsUndoUp(w, 8);
  }

  lemma {:induction false} BlockStep(c: bv32, m: seq<bv8>)
    requires |m| <= 4
    ensures Register(c, m) == Bits(Xor(c, Word(m)), 8 * |m|)
    decreases |m|
  {
    hide BitStep, Xor, Wide, Up8, Narrow;
    XorZeroRight(c);
    if m != [] {
      var b, rest := Wide(m[0]), Word(m[1..]);
      BlockStep(ByteStep(c, m[0]), m[1..]);
      WordIsNarrow(m[1..]);
      EightStepsUndoUp8(rest, |m[1..]|);
      BitsLinear(Xor(c, b), Up8(rest), 8);
      XorAssoc(c, b, Up8(rest));
      BitsAdd(Xor(c, Word(m)), 8, 8 * |m[1..]|);
    }
  }

  lemma SplitWord(a: bv8, v: bv32, b: bv8, w: bv32, k: nat)
    requires k <= 3 && Narrow(v, k) && Narrow(w, k)
    requires Xor(Wide(a), Up8(v)) == Xor(Wide(b), Up8(w))
    ensures a == b && v == w
  {
    assert v <= 0xffffff && w <= 0xffffff;
  }

  lemma {:induction false} WordInjective(m: seq<bv8>, n: seq<bv8>)
    requires |m| == |n| <= 4 && Word(m) == Word(n)
    ensures m == n
    decreases |m|
  {
    hide Xor, Wide, Up8, Narrow;
    if m != [] {
      WordIsNarrow(m[1..]);
      WordIsNarrow(n[1..]);
      SplitWord(m[0], Word(m[1..]), n[0], Word(n[1..]), |m[1..]|);
      WordInjective(m[1..], n[1..]);
      assert m == [m[0]] + m[1..] && n == [n[0]] + n[1..];
    }
  }

  // Main result: inputs that differ only inside some four adjacent bytes never share a CRC.
  lemma BurstIsDetected(prefix: seq<bv8>, m: seq<bv8>, n: seq<bv8>, suffix: seq<bv8>)
    requires |m| == |n| <= 4 && m != n
    ensures Crc(prefix + m + suffix) != Crc(prefix + n + suffix)
  {
    hide Register, Word, Bits, Xor, Not;
    var c := Register(ONES, prefix);
    RegisterAppend(ONES, prefix + m, suffix);
    RegisterAppend(ONES, prefix + n, suffix);
    RegisterAppend(ONES, prefix, m);
    RegisterAppend(ONES, prefix, n);
    if Crc(prefix + m + suffix) == Crc(prefix + n + suffix) {
      NotInjective(Register(Register(c, m), suffix), Register(Register(c, n), suffix));
      RegisterInjective(Register(c, m), Register(c, n), suffix);
      BlockStep(c, m);
      BlockStep(c, n);
      BitsInjective(Xor(c, Word(m)), Xor(c, Word(n)), 8 * |m|);
      XorSwap(c, Word(m));
      XorSwap(c, Word(n));
      XorCancel(Word(m), Word(n), c);
      WordInjective(m, n);
    }
  }
}
