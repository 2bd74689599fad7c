// The binary file between assembler and loader: little-endian records, written field by field and
// read back at the offsets of C structures.
module Format {
  import opened Words

  type Byte = x: int | 0 <= x < 256

  // ---- Little-endian numbers ----

  function Power256(k: nat): nat {
    if k == 0 then 1 else 256 * Power256(k - 1)
  }

  function Encode(n: nat, k: nat): (b: seq<Byte>)
    ensures |b| == k
  {
    if k == 0 then [] else [n % 256] + Encode(n / 256, k - 1)
  }

  function Decode(b: seq<Byte>): nat {
    if b == [] then 0 else b[0] + 256 * Decode(b[1..])
  }

  lemma {:induction false} NumberRoundTrip(n: nat, k: nat)
    requires n < Power256(k)
    ensures Decode(Encode(n, k)) == n
    decreases k
  {
    if k > 0 {
      NumberRoundTrip(n / 256, k - 1);
      assert Encode(n, k)[1..] == Encode(n / 256, k - 1);
    }
  }

  // The k bytes of b at offset i, as a number.
  function Field(b: seq<Byte>, i: nat, k: nat): nat
    requires i + k <= |b|
  {
    Decode(b[i..i + k])
  }

  // ---- Lists of records ----

  // All records one after the other.
  function EncodeAll<T>(xs: seq<T>, enc: T -> seq<Byte>): seq<Byte> {
    if xs == [] then [] else enc(xs[0]) + EncodeAll(xs[1..], enc)
  }

  // n records of the given size.
  function DecodeAll<T>(b: seq<Byte>, n: nat, size: nat, dec: seq<Byte> -> T): (xs: seq<T>)
    requires |b| == n * size
    ensures |xs| == n
    decreases n
  {
    if n == 0 then [] else
      assert size <= n * size && (n - 1) * size == n * size - size;
      [dec(b[..size])] + DecodeAll(b[size..], n - 1, size, dec)
  }

  // Records of one size that each survive the trip survive it together.
  lemma {:induction false} ListRoundTrip<S, T>(xs: seq<S>, enc: S -> seq<Byte>, dec: seq<Byte> -> T, want: S -> T, size: nat)
    requires forall x :: x in xs ==> |enc(x)| == size && dec(enc(x)) == want(x)
    ensures |EncodeAll(xs, enc)| == |xs| * size
    ensures DecodeAll(EncodeAll(xs, enc), |xs|, size, dec) == seq(|xs|, k requires 0 <= k < |xs| => want(xs[k]))
    decreases |xs|
  {
    if xs == [] {
    } else {
      ListRoundTrip(xs[1..], enc, dec, want, size);
      var b, head, n := EncodeAll(xs, enc), enc(xs[0]), |xs|;
      assert xs[0] in xs;
      assert b[..size] == head && b[size..] == EncodeAll(xs[1..], enc);
      assert (n - 1) * size == n * size - size;
      var rest := seq(n - 1, k requires 0 <= k < n - 1 => want(xs[1..][k]));
      assert [want(xs[0])] + rest == seq(n, k requires 0 <= k < n => want(xs[k]));
    }
  }

  // ---- Records ----

  // destination_to_update: `<IBxxx`
  datatype Patch = Patch(instruction: nat, first: bool, second: bool, literal1: bool, literal2: bool)

  function Flags(p: Patch): Byte {
    (if p.first then 1 else 0) + (if p.second then 2 else 0) + (if p.literal1 then 4 else 0) + (if p.literal2 then 8 else 0)
  }

  const PAD3: seq<Byte> := [0, 0, 0]
  const PAD4: seq<Byte> := [0, 0, 0, 0]

  function EncodePatch(p: Patch): (b: seq<Byte>)
    ensures |b| == 8
  {
    Encode(p.instruction, 4) + [Flags(p)] + PAD3
  }

  function DecodePatch(b: seq<Byte>): Patch {
    if |b| != 8 then Patch(0, false, false, false, false)
    else Patch(Field(b, 0, 4), b[4] % 2 == 1, b[4] / 2 % 2 == 1, b[4] / 4 % 2 == 1, b[4] / 8 % 2 == 1)
  }

  predicate PatchFits(p: Patch) { p.instruction < 0x1_0000_0000 }

  lemma Sizes()
    ensures Power256(2) == 0x1_0000 && Power256(4) == 0x1_0000_0000 && Power256(8) == 0x1_0000_0000_0000_0000
  {
  }

  lemma PatchRoundTrip(p: Patch)
    requires PatchFits(p)
    ensures DecodePatch(EncodePatch(p)) == p
  {
    hide Encode, Decode, Power256;
    Sizes();
    NumberRoundTrip(p.instruction, 4);
    var b := EncodePatch(p);
    assert b[0..4] == Encode(p.instruction, 4) && b[4] == Flags(p);
  }

  // `<256s`: cut to 256 bytes, or filled up with zeros
  function Zeros(n: nat): (b: seq<Byte>)
    ensures |b| == n && forall k :: 0 <= k < n ==> b[k] == 0
  {
    seq(n, k => 0)
  }

  function EncodeName(name: seq<Byte>): (b: seq<Byte>)
    ensures |b| == 256
  {
    if |name| >= 256 then name[..256] else name + Zeros(256 - |name|)
  }

  // Up to the first zero
  function CString(b: seq<Byte>): seq<Byte> {
    if b == [] || b[0] == 0 then [] else [b[0]] + CString(b[1..])
  }

  // The last byte is overwritten with a zero before the name is used.
  function DecodeName(b: seq<Byte>): seq<Byte>
    requires |b| == 256
  {
    CString(b[..255])
  }

  predicate NameFits(name: seq<Byte>) {
    |name| <= 255 && forall k :: 0 <= k < |name| ==> name[k] != 0
  }

  lemma {:induction false} CStringOf(name: seq<Byte>, rest: seq<Byte>)
    requires (forall k :: 0 <= k < |name| ==> name[k] != 0) && (rest == [] || rest[0] == 0)
    ensures CString(name + rest) == name
  {
    if name == [] {
      assert name + rest == rest;
    } else {
      assert (name + rest)[1..] == name[1..] + rest;
      CStringOf(name[1..], rest);
    }
  }

  lemma NameRoundTrip(name: seq<Byte>)
    requires NameFits(name)
    ensures DecodeName(EncodeName(name)) == name
  {
    hide CString;
    var b := EncodeName(name);
    assert b[..255] == name + Zeros(255 - |name|);
    CStringOf(name, Zeros(255 - |name|));
  }

  datatype External = External(patch: Patch, name: seq<Byte>)

  function EncodeExternal(e: External): (b: seq<Byte>)
    ensures |b| == 264
  {
    EncodePatch(e.patch) + EncodeName(e.name)
  }

  function DecodeExternal(b: seq<Byte>): External {
    if |b| != 264 then External(DecodePatch([]), []) else External(DecodePatch(b[..8]), DecodeName(b[8..]))
  }

  predicate ExternalFits(e: External) { PatchFits(e.patch) && NameFits(e.name) }

  lemma ExternalRoundTrip(e: External)
    requires ExternalFits(e)
    ensures DecodeExternal(EncodeExternal(e)) == e
  {
    hide EncodePatch, DecodePatch, EncodeName, DecodeName;
    PatchRoundTrip(e.patch);
    NameRoundTrip(e.name);
    var b := EncodeExternal(e);
    assert b[..8] == EncodePatch(e.patch) && b[8..] == EncodeName(e.name);
  }

  // export_symbol: `<I256s`
  datatype Export = Export(destination: nat, name: seq<Byte>)

  function EncodeExport(e: Export): (b: seq<Byte>)
    ensures |b| == 260
  {
    Encode(e.destination, 4) + EncodeName(e.name)
  }

  function DecodeExport(b: seq<Byte>): Export {
    if |b| != 260 then Export(0, []) else Export(Field(b, 0, 4), DecodeName(b[4..]))
  }

  predicate ExportFits(e: Export) { e.destination < 0x1_0000_0000 && NameFits(e.name) }

  lemma ExportRoundTrip(e: Export)
    requires ExportFits(e)
    ensures DecodeExport(EncodeExport(e)) == e
  {
    hide Encode, Decode, EncodeName, DecodeName, Power256;
    Sizes();
    NumberRoundTrip(e.destination, 4);
    NameRoundTrip(e.name);
    var b := EncodeExport(e);
    assert b[0..4] == Encode(e.destination, 4) && b[4..] == EncodeName(e.name);
  }

  // instruction: `<IIIBxxxqqIxxxx`; literals as 64-bit words
  datatype Inst = Inst(opcode: nat, d1: nat, d2: nat, marker: nat, literal1: nat, literal2: nat, literals: nat)

  function EncodeInst(i: Inst): (b: seq<Byte>)
    ensures |b| == 40
  {
    Encode(i.opcode, 4) + Encode(i.d1, 4) + Encode(i.d2, 4) + Encode(i.marker, 1) + PAD3
      + Encode(i.literal1, 8) + Encode(i.literal2, 8) + Encode(i.literals, 4) + PAD4
  }

  // The C structure: opcode at 0, destinations at 4 and 8, marker at 12, literals at 16 and 24, their
  // number at 32.
  function DecodeInst(b: seq<Byte>): Inst {
    if |b| != 40 then Inst(0, 0, 0, 0, 0, 0, 0)
    else Inst(Field(b, 0, 4), Field(b, 4, 4), Field(b, 8, 4), Field(b, 12, 1), Field(b, 16, 8), Field(b, 24, 8), Field(b, 32, 4))
  }

  predicate InstFits(i: Inst) {
    && i.opcode < 0x1_0000_0000 && i.d1 < 0x1_0000_0000 && i.d2 < 0x1_0000_0000 && i.marker < 256
    && i.literal1 < 0x1_0000_0000_0000_0000 && i.literal2 < 0x1_0000_0000_0000_0000 && i.literals < 0x1_0000_0000
  }

  lemma InstRoundTrip(i: Inst)
    requires InstFits(i)
    ensures DecodeInst(EncodeInst(i)) == i
  {
    hide Encode, Decode, Power256;
    Sizes();
    assert Power256(1) == 256 by { OneByte(); }
    NumberRoundTrip(i.opcode, 4);
    NumberRoundTrip(i.d1, 4);
    NumberRoundTrip(i.d2, 4);
    NumberRoundTrip(i.marker, 1);
    NumberRoundTrip(i.literal1, 8);
    NumberRoundTrip(i.literal2, 8);
    NumberRoundTrip(i.literals, 4);
    InstFields(i);
  }

  lemma OneByte()
    ensures Power256(1) == 256
  {
  }

  lemma InstFields(i: Inst)
    ensures var b := EncodeInst(i);
      && b[0..4] == Encode(i.opcode, 4) && b[4..8] == Encode(i.d1, 4) && b[8..12] == Encode(i.d2, 4)
      && b[12..13] == Encode(i.marker, 1) && b[16..24] == Encode(i.literal1, 8) && b[24..32] == Encode(i.literal2, 8)
      && b[32..36] == Encode(i.literals, 4)
  {
    hide Encode;
  }

  // ---- The file ----

  datatype File = File(constants: seq<Patch>, labels: seq<Patch>, externals: seq<External>, exports: seq<Export>, code: seq<Inst>)

  // "sephiALD"
  const MAGIC: seq<Byte> := [115, 101, 112, 104, 105, 65, 76, 68]

  function EncodeCounts(f: File): (b: seq<Byte>)
    ensures |b| == 8
  {
    Encode(|f.constants|, 2) + Encode(|f.labels|, 2) + Encode(|f.externals|, 2) + Encode(|f.exports|, 2)
  }

  function EncodeFile(f: File): seq<Byte> {
    MAGIC + EncodeCounts(f)
      + EncodeAll(f.constants, EncodePatch) + EncodeAll(f.labels, EncodePatch)
      + EncodeAll(f.externals, EncodeExternal) + EncodeAll(f.exports, EncodeExport)
      + EncodeAll(f.code, EncodeInst)
  }

  // load_file's pointers into the file, and its checks: the header fits, the magic bytes are there,
  // the lists end before the file does, and what is left is a whole number of instructions.
  function DecodeFile(b: seq<Byte>): Option<File> {
    if |b| < 16 || b[..8] != MAGIC then None
    else
      var n1, n2, n3, n4 := Field(b, 8, 2), Field(b, 10, 2), Field(b, 12, 2), Field(b, 14, 2);
      var toFix := 16 + n1 * 8;
      var externals := toFix + n2 * 8;
      var exports := externals + n3 * 264;
      var start := exports + n4 * 260;
      if start > |b| || (|b| - start) % 40 != 0 then None
      else
        var n := (|b| - start) / 40;
        Some(File(DecodeAll(b[16..toFix], n1, 8, DecodePatch), DecodeAll(b[toFix..externals], n2, 8, DecodePatch),
                  DecodeAll(b[externals..exports], n3, 264, DecodeExternal), DecodeAll(b[exports..start], n4, 260, DecodeExport),
                  DecodeAll(b[start..], n, 40, DecodeInst)))
  }

  ghost predicate FileFits(f: File) {
    && |f.constants| < 0x1_0000 && |f.labels| < 0x1_0000 && |f.externals| < 0x1_0000 && |f.exports| < 0x1_0000
    && (forall x :: x in f.constants ==> PatchFits(x)) && (forall x :: x in f.labels ==> PatchFits(x))
    && (forall x :: x in f.externals ==> ExternalFits(x)) && (forall x :: x in f.exports ==> ExportFits(x))
    && forall x :: x in f.code ==> InstFits(x)
  }

  lemma PatchesRoundTrip(ps: seq<Patch>)
    requires forall x :: x in ps ==> PatchFits(x)
    ensures |EncodeAll(ps, EncodePatch)| == |ps| * 8
    ensures DecodeAll(EncodeAll(ps, EncodePatch), |ps|, 8, DecodePatch) == ps
  {
    hide EncodePatch, DecodePatch, EncodeAll, DecodeAll;
    forall x | x in ps ensures DecodePatch(EncodePatch(x)) == x { PatchRoundTrip(x); }
    ListRoundTrip(ps, EncodePatch, DecodePatch, (x: Patch) => x, 8);
  }

  lemma ExternalsRoundTrip(es: seq<External>)
    requires forall x :: x in es ==> ExternalFits(x)
    ensures |EncodeAll(es, EncodeExternal)| == |es| * 264
    ensures DecodeAll(EncodeAll(es, EncodeExternal), |es|, 264, DecodeExternal) == es
  {
    hide EncodeExternal, DecodeExternal, EncodeAll, DecodeAll;
    forall x | x in es ensures DecodeExternal(EncodeExternal(x)) == x { ExternalRoundTrip(x); }
    ListRoundTrip(es, EncodeExternal, DecodeExternal, (x: External) => x, 264);
  }

  lemma ExportsRoundTrip(es: seq<Export>)
    requires forall x :: x in es ==> ExportFits(x)
    ensures |EncodeAll(es, EncodeExport)| == |es| * 260
    ensures DecodeAll(EncodeAll(es, EncodeExport), |es|, 260, DecodeExport) == es
  {
    hide EncodeExport, DecodeExport, EncodeAll, DecodeAll;
    forall x | x in es ensures DecodeExport(EncodeExport(x)) == x { ExportRoundTrip(x); }
    ListRoundTrip(es, EncodeExport, DecodeExport, (x: Export) => x, 260);
  }

  lemma CodeRoundTrip(code: seq<Inst>)
    requires forall x :: x in code ==> InstFits(x)
    ensures |EncodeAll(code, EncodeInst)| == |code| * 40
    ensures DecodeAll(EncodeAll(code, EncodeInst), |code|, 40, DecodeInst) == code
  {
    hide EncodeInst, DecodeInst, EncodeAll, DecodeAll;
    forall x | x in code ensures DecodeInst(EncodeInst(x)) == x { InstRoundTrip(x); }
    ListRoundTrip(code, EncodeInst, DecodeInst, (x: Inst) => x, 40);
  }

  lemma Parts(m: seq<Byte>, h: seq<Byte>, a: seq<Byte>, b: seq<Byte>, c: seq<Byte>, d: seq<Byte>, e: seq<Byte>)
    requires |m| == 8 && |h| == 8
    ensures var f := m + h + a + b + c + d + e;
      var i, j, k, l := 16 + |a|, 16 + |a| + |b|, 16 + |a| + |b| + |c|, 16 + |a| + |b| + |c| + |d|;
      && |f| == l + |e| && f[..8] == m && f[8..16] == h
      && f[16..i] == a && f[i..j] == b && f[j..k] == c && f[k..l] == d && f[l..] == e
  {
  }

  lemma CountsAt(f: File, b: seq<Byte>)
    requires |b| >= 16 && b[8..16] == EncodeCounts(f)
    requires |f.constants| < 0x1_0000 && |f.labels| < 0x1_0000 && |f.externals| < 0x1_0000 && |f.exports| < 0x1_0000
    ensures Field(b, 8, 2) == |f.constants| && Field(b, 10, 2) == |f.labels|
    ensures Field(b, 12, 2) == |f.externals| && Field(b, 14, 2) == |f.exports|
  {
    hide Encode, Decode, Power256;
    Sizes();
    NumberRoundTrip(|f.constants|, 2);
    NumberRoundTrip(|f.labels|, 2);
    NumberRoundTrip(|f.externals|, 2);
    NumberRoundTrip(|f.exports|, 2);
    FourPairs(b, Encode(|f.constants|, 2), Encode(|f.labels|, 2), Encode(|f.externals|, 2), Encode(|f.exports|, 2));
  }

  lemma FourPairs(b: seq<Byte>, w: seq<Byte>, x: seq<Byte>, y: seq<Byte>, z: seq<Byte>)
    requires |w| == |x| == |y| == |z| == 2 && |b| >= 16 && b[8..16] == w + x + y + z
    ensures b[8..10] == w && b[10..12] == x && b[12..14] == y && b[14..16] == z
  {
    var h := w + x + y + z;
    assert h[0..2] == w && h[2..4] == x && h[4..6] == y && h[6..8] == z;
    assert b[8..10] == b[8..16][0..2] && b[10..12] == b[8..16][2..4];
    assert b[12..14] == b[8..16][4..6] && b[14..16] == b[8..16][6..8];
  }

  // What the assembler writes, the loader reads.
  lemma FileRoundTrip(f: File)
    requires FileFits(f)
    ensures DecodeFile(EncodeFile(f)) == Some(f)
  {
    hide EncodeAll, DecodeAll, EncodeCounts, EncodePatch, EncodeExternal, EncodeExport, EncodeInst, Field;
    hide DecodePatch, DecodeExternal, DecodeExport, DecodeInst, PatchFits, ExternalFits, ExportFits, InstFits, Encode, Decode;
    PatchesRoundTrip(f.constants);
    PatchesRoundTrip(f.labels);
    ExternalsRoundTrip(f.externals);
    ExportsRoundTrip(f.exports);
    CodeRoundTrip(f.code);
    Parts(MAGIC, EncodeCounts(f), EncodeAll(f.constants, EncodePatch), EncodeAll(f.labels, EncodePatch),
          EncodeAll(f.externals, EncodeExternal), EncodeAll(f.exports, EncodeExport), EncodeAll(f.code, EncodeInst));
    CountsAt(f, EncodeFile(f));
  }

  // ---- The serializers ----

  method WriteCode(code: seq<Inst>) returns (b: seq<Byte>)
    ensures b == EncodeAll(code, EncodeInst)
  {
    hide EncodeInst;
    b := [];
    assert code[0..] == code;
    for k := 0 to |code|
      invariant b + EncodeAll(code[k..], EncodeInst) == EncodeAll(code, EncodeInst)
    {
      assert code[k..][1..] == code[k + 1..];
      b := b + EncodeInst(code[k]);
    }
    assert EncodeAll(code[|code|..], EncodeInst) == [];
  }

  // One of the lists of generate_header
  method WriteList<T>(xs: seq<T>, enc: T -> seq<Byte>, before: seq<Byte>) returns (b: seq<Byte>)
    ensures b == before + EncodeAll(xs, enc)
  {
    b := before;
    assert xs[0..] == xs;
    for k := 0 to |xs|
      invariant b + EncodeAll(xs[k..], enc) == before + EncodeAll(xs, enc)
    {
      assert xs[k..][1..] == xs[k + 1..];
      b := b + enc(xs[k]);
    }
    assert EncodeAll(xs[|xs|..], enc) == [];
  }

  method WriteFile(f: File) returns (b: seq<Byte>)
    ensures b == EncodeFile(f)
  {
    hide EncodeAll, EncodeCounts, EncodePatch, EncodeExternal, EncodeExport, EncodeInst;
    b := MAGIC + EncodeCounts(f);
    b := WriteList(f.constants, EncodePatch, b);
    b := WriteList(f.labels, EncodePatch, b);
    b := WriteList(f.externals, EncodeExternal, b);
    b := WriteList(f.exports, EncodeExport, b);
    var code := WriteCode(f.code);
    b := b + code;
  }

  // ---- What an instruction of the assembler becomes ----

  // Destinations and literals may be missing; literals are signed.
  datatype AsmInst = AsmInst(opcode: nat, d1: Option<nat>, d2: Option<nat>, literal1: Option<int>, literal2: Option<int>)

  const DEV_NULL: nat := 0xFFFF_FFB0

  function ToWord(l: int): nat { l % 0x1_0000_0000_0000_0000 }

  function Signed(w: nat): int {
    if w < 0x8000_0000_0000_0000 then w else w - 0x1_0000_0000_0000_0000
  }

  function Raw(a: AsmInst): Inst {
    Inst(a.opcode, if a.d1.Some? then a.d1.value else DEV_NULL, if a.d2.Some? then a.d2.value else DEV_NULL,
         if a.d2.Some? && a.d2.value != 0 then 1 else 0,
         ToWord(if a.literal1.Some? then a.literal1.value else 0), ToWord(if a.literal2.Some? then a.literal2.value else 0),
         (if a.literal1.Some? then 1 else 0) + (if a.literal2.Some? then 1 else 0))
  }

  predicate AsmFits(a: AsmInst) {
    && a.opcode < 0x1_0000_0000 && (a.d1.Some? ==> a.d1.value < 0x1_0000_0000) && (a.d2.Some? ==> a.d2.value < 0x1_0000_0000)
    && (a.literal1.Some? ==> -0x8000_0000_0000_0000 <= a.literal1.value < 0x8000_0000_0000_0000)
    && (a.literal2.Some? ==> -0x8000_0000_0000_0000 <= a.literal2.value < 0x8000_0000_0000_0000)
  }

  lemma SignedWord(l: int)
    requires -0x8000_0000_0000_0000 <= l < 0x8000_0000_0000_0000
    ensures Signed(ToWord(l)) == l && ToWord(l) < 0x1_0000_0000_0000_0000
  {
  }

  // Instructions survive the trip with their signed literals; missing destinations lead to /dev/null,
  // and the marker is set exactly for a second destination word other than 0.
  lemma InstructionSurvives(a: AsmInst)
    requires AsmFits(a)
    ensures var i := DecodeInst(EncodeInst(Raw(a)));
      && i.opcode == a.opcode
      && i.d1 == (if a.d1.Some? then a.d1.value else DEV_NULL) && i.d2 == (if a.d2.Some? then a.d2.value else DEV_NULL)
      && (i.marker == 1 <==> a.d2.Some? && a.d2.value != 0)
      && (a.literal1.Some? ==> Signed(i.literal1) == a.literal1.value)
      && (a.literal2.Some? ==> Signed(i.literal2) == a.literal2.value)
      && (i.literals == 0 <==> a.literal1.None? && a.literal2.None?)
      && (i.literals == 2 <==> a.literal1.Some? && a.literal2.Some?)
  {
    hide EncodeInst, DecodeInst, ToWord, Signed;
    SignedWord(if a.literal1.Some? then a.literal1.value else 0);
    SignedWord(if a.literal2.Some? then a.literal2.value else 0);
    InstRoundTrip(Raw(a));
  }
}
